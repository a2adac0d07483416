/**
 Redaction of absolute paths (src/tools/mod.rs): drive, network and Unix paths that start at
 a word boundary. Every byte the scanner looks for is ASCII, so it is modelled on
 characters.
 */
module PathRedaction {
  import opened Wrappers
  import opened Sequences
  import opened TextPieces

  const PATH_MARK := "[absolute path]"

  predicate Space(c: char) {
    c == ' ' || c == '\t' || c == '\n' || c == '\r' || c == 12 as char
  }

  /** A path may start after such a character. */
  predicate Opens(c: char) {
    Space(c) || c == '\'' || c == '"' || c == '(' || c == '[' || c == '{' || c == '='
  }

  /** A path ends before such a character. */
  predicate Stops(c: char) {
    Space(c) || c == '\'' || c == '"' || c == '`' || c == ',' || c == ';' || c == ')' || c == ']' || c == '}'
    || c == '<' || c == '>'
  }

  predicate Slash(c: char) {
    c == '/' || c == '\\'
  }

  predicate AtBoundary(prev: Option<char>) {
    prev.None? || Opens(prev.value)
  }

  predicate WindowsPath(t: string) {
    |t| > 2 && IsAlphabetic(t[0]) && t[1] == ':' && Slash(t[2])
  }

  predicate NetworkPath(t: string) {
    |t| > 1 && Slash(t[0]) && t[1] == t[0]
  }

  predicate UnixPath(t: string) {
    |t| > 1 && t[0] == '/' && t[1] != '/'
  }

  /** How long the start of a path is that a text begins with, or zero; `prev` is the
      character in front of the text. */
  function PathAt(prev: Option<char>, t: string): (n: nat)
    ensures n <= |t|
  {
    if WindowsPath(t) then 3
    else if AtBoundary(prev) && NetworkPath(t) then 2
    else if AtBoundary(prev) && UnixPath(t) then 1
    else 0
  }

  function PathEnd(t: string, from: nat): (end: nat)
    requires from <= |t|
    ensures from <= end <= |t|
    decreases |t| - from
  {
    if from < |t| && !Stops(t[from]) then PathEnd(t, from + 1) else from
  }

  lemma {:induction false} PathEndMeans(t: string, from: nat)
    requires from <= |t|
    ensures forall i :: from <= i < PathEnd(t, from) ==> !Stops(t[i])
    ensures PathEnd(t, from) < |t| ==> Stops(t[PathEnd(t, from)])
    decreases |t| - from
  {
    if from < |t| && !Stops(t[from]) {
      PathEndMeans(t, from + 1);
    }
  }

  function PathsHidden(prev: Option<char>, t: string): string
    decreases |t|
  {
    if t == "" then ""
    else
      var n := PathAt(prev, t);
      if n > 0 then
        var end := PathEnd(t, n);
        PATH_MARK + PathsHidden(Some(t[end - 1]), t[end..])
      else
        [t[0]] + PathsHidden(Some(t[0]), t[1..])
  }

  /** No position starts a path. */
  predicate NoPath(prev: Option<char>, t: string)
    decreases |t|
  {
    t == "" || (PathAt(prev, t) == 0 && NoPath(Some(t[0]), t[1..]))
  }

  function Before(prev: Option<char>, t: string, i: nat): Option<char>
    requires i <= |t|
  {
    if i == 0 then prev else Some(t[i - 1])
  }

  lemma {:induction false} NoPathMeans(prev: Option<char>, t: string, i: nat)
    requires NoPath(prev, t) && i <= |t|
    ensures PathAt(Before(prev, t, i), t[i..]) == 0
    decreases i
  {
    if i == 0 {
      assert t[0..] == t;
    } else {
      NoPathMeans(Some(t[0]), t[1..], i - 1);
      assert t[1..][i - 1..] == t[i..];
    }
  }

  lemma KeptPathStep(prev: Option<char>, t: string)
    requires t != "" && PathAt(prev, t) == 0
    ensures PathsHidden(prev, t) == [t[0]] + PathsHidden(Some(t[0]), t[1..])
  {
  }

  lemma MarkedPathStep(prev: Option<char>, t: string)
    requires t != "" && PathAt(prev, t) > 0
    ensures PathsHidden(prev, t) != "" && PathsHidden(prev, t)[0] == '['
  {
  }

  /** Up to a mark the output is the input. */
  lemma {:induction false} OutputStartsAsInput(prev: Option<char>, t: string, out: string, n: nat)
    requires out == PathsHidden(prev, t) && n <= |out| && forall i :: 0 <= i < n ==> out[i] != '['
    ensures Agree(out, t, n)
    decreases |t|
  {
    if n > 0 && t != "" {
      if PathAt(prev, t) > 0 {
        MarkedPathStep(prev, t);
      } else {
        KeptPathStep(prev, t);
        var rest := PathsHidden(Some(t[0]), t[1..]);
        assert forall i :: 0 <= i < n - 1 ==> rest[i] == out[i + 1];
        OutputStartsAsInput(Some(t[0]), t[1..], rest, n - 1);
        AgreeOnMore(t[0], rest, t[1..], n - 1);
        assert t == [t[0]] + t[1..];
      }
    }
  }

  /** A slash that is kept is followed by what follows it in the input, or by a mark. */
  lemma AfterSlash(prev: Option<char>, t: string, out: string)
    requires out == PathsHidden(prev, t) && t != "" && PathAt(prev, t) == 0 && t[0] == '/' && |out| > 1
    ensures |t| > 1 && (t[1] == '/' ==> out[1] == '/')
  {
  }

  /** Where no path starts in the input, none starts in the output. */
  lemma HeadStaysPathFree(prev: Option<char>, t: string)
    requires t != "" && PathAt(prev, t) == 0
    ensures PathAt(prev, PathsHidden(prev, t)) == 0
  {
    var out := PathsHidden(prev, t);
    if WindowsPath(out) {
      OutputStartsAsInput(prev, t, out, 3);
    } else if NetworkPath(out) {
      OutputStartsAsInput(prev, t, out, 2);
    } else if UnixPath(out) {
      OutputStartsAsInput(prev, t, out, 1);
      AfterSlash(prev, t, out);
    }
  }

  /** Neither slash nor colon, and not a letter at the end: no path starts in such a text. */
  predicate PathProof(m: string) {
    m != "" && !IsAlphabetic(m[|m| - 1]) && forall i :: 0 <= i < |m| ==> !Slash(m[i]) && m[i] != ':'
  }

  lemma NoPathStartsWith(prev: Option<char>, c: char, u: string)
    requires !Slash(c) && (IsAlphabetic(c) ==> u == "" || u[0] != ':')
    ensures PathAt(prev, [c] + u) == 0
  {
  }

  lemma NoPathCons(prev: Option<char>, c: char, u: string)
    requires PathAt(prev, [c] + u) == 0 && NoPath(Some(c), u)
    ensures NoPath(prev, [c] + u)
  {
  }

  lemma {:induction false} PathProofIsClean(prev: Option<char>, m: string, rest: string)
    requires PathProof(m) && NoPath(Some(m[|m| - 1]), rest)
    ensures NoPath(prev, m + rest)
    decreases |m|
  {
    var u := m[1..] + rest;
    assert m + rest == [m[0]] + u;
    if |m| == 1 {
      assert u == rest;
    } else {
      assert u[0] == m[1];
      PathProofIsClean(Some(m[0]), m[1..], rest);
    }
    NoPathStartsWith(prev, m[0], u);
    NoPathCons(prev, m[0], u);
  }

  /** After a path the text goes on with a character no path starts with. */
  lemma NoPathAtStop(prev: Option<char>, t: string)
    requires t != "" && Stops(t[0])
    ensures PathAt(prev, t) == 0
  {
  }

  lemma MarkIsClean(prev: Option<char>, rest: string)
    requires NoPath(Some(']'), rest)
    ensures NoPath(prev, PATH_MARK + rest)
  {
    PathProofIsClean(prev, PATH_MARK, rest);
  }

  lemma {:induction false} NoPathSurvives(prev: Option<char>, t: string)
    ensures NoPath(prev, PathsHidden(prev, t))
    decreases |t|, 0
  {
    if t != "" {
      var n := PathAt(prev, t);
      if n > 0 {
        var end := PathEnd(t, n);
        PathEndMeans(t, n);
        NoPathSurvivesAfterMark(Some(t[end - 1]), t[end..]);
        MarkIsClean(prev, PathsHidden(Some(t[end - 1]), t[end..]));
      } else {
        NoPathSurvives(Some(t[0]), t[1..]);
        HeadStaysPathFree(prev, t);
        KeptPathStep(prev, t);
        NoPathCons(prev, t[0], PathsHidden(Some(t[0]), t[1..]));
      }
    }
  }

  /** What follows a path is clean behind a mark as well. */
  lemma {:induction false} NoPathSurvivesAfterMark(prev: Option<char>, t: string)
    requires t == "" || Stops(t[0])
    ensures NoPath(Some(']'), PathsHidden(prev, t))
    decreases |t|, 1
  {
    if t != "" {
      NoPathAtStop(prev, t);
      KeptPathStep(prev, t);
      NoPathSurvives(Some(t[0]), t[1..]);
      HeadAndTail([t[0]], PathsHidden(Some(t[0]), t[1..]));
      NoPathAtStop(Some(']'), PathsHidden(prev, t));
    }
  }

  lemma {:induction false} PathFreeTextIsKept(prev: Option<char>, t: string)
    requires NoPath(prev, t)
    ensures PathsHidden(prev, t) == t
    decreases |t|
  {
    if t != "" {
      PathFreeTextIsKept(Some(t[0]), t[1..]);
      assert t == [t[0]] + t[1..];
    }
  }

  /** No position of the output passes the path test. */
  lemma PathsAreGone(input: string, i: nat)
    requires i <= |PathsHidden(None, input)|
    ensures PathAt(Before(None, PathsHidden(None, input), i), PathsHidden(None, input)[i..]) == 0
  {
    NoPathSurvives(None, input);
    NoPathMeans(None, PathsHidden(None, input), i);
  }

  /** Hiding paths twice is hiding them once. */
  lemma PathRedactionIsIdempotent(input: string)
    ensures PathsHidden(None, PathsHidden(None, input)) == PathsHidden(None, input)
  {
    NoPathSurvives(None, input);
    PathFreeTextIsKept(None, PathsHidden(None, input));
  }

  function PathPieces(prev: Option<char>, t: string): seq<Piece>
    decreases |t|
  {
    if t == "" then []
    else
      var n := PathAt(prev, t);
      if n > 0 then
        var end := PathEnd(t, n);
        [Removed(t[..end])] + PathPieces(Some(t[end - 1]), t[end..])
      else
        [Kept([t[0]])] + PathPieces(Some(t[0]), t[1..])
  }

  predicate NoStopFrom(text: string, from: nat) {
    forall i :: from <= i < |text| ==> !Stops(text[i])
  }

  /** The start of a path, and characters that do not end it. */
  predicate IsPath(text: string) {
    || (WindowsPath(text) && NoStopFrom(text, 3))
    || (NetworkPath(text) && NoStopFrom(text, 2))
    || (text != "" && text[0] == '/' && (|text| > 1 ==> text[1] != '/') && NoStopFrom(text, 1))
  }

  /** Every piece removed starts like a path and runs up to a character that ends one. */
  predicate PathsCut(pieces: seq<Piece>) {
    pieces == []
    || (PathsCut(pieces[1..])
        && (pieces[0].Removed? ==> IsPath(pieces[0].text))
        && (pieces[0].Removed? && |pieces| > 1 ==> pieces[1].text != "" && Stops(pieces[1].text[0])))
  }

  lemma FirstPathPiece(prev: Option<char>, t: string)
    ensures PathPieces(prev, t) == [] <==> t == ""
    ensures t != "" ==> PathPieces(prev, t)[0].text != "" && PathPieces(prev, t)[0].text[0] == t[0]
  {
  }

  lemma CutIsPath(prev: Option<char>, t: string)
    requires PathAt(prev, t) > 0
    ensures IsPath(t[..PathEnd(t, PathAt(prev, t))])
  {
    PathEndMeans(t, PathAt(prev, t));
    assert NoStopFrom(t[..PathEnd(t, PathAt(prev, t))], PathAt(prev, t));
  }

  lemma RemovedPieceStep(prev: Option<char>, t: string, end: nat)
    requires t != "" && PathAt(prev, t) > 0 && end == PathEnd(t, PathAt(prev, t))
    ensures PathPieces(prev, t) == [Removed(t[..end])] + PathPieces(Some(t[end - 1]), t[end..])
  {
  }

  lemma RemovedPathStep(prev: Option<char>, t: string, end: nat)
    requires t != "" && PathAt(prev, t) > 0 && end == PathEnd(t, PathAt(prev, t))
    ensures PathsHidden(prev, t) == PATH_MARK + PathsHidden(Some(t[end - 1]), t[end..])
  {
  }

  lemma KeptPieceStep(prev: Option<char>, t: string)
    requires t != "" && PathAt(prev, t) == 0
    ensures PathPieces(prev, t) == [Kept([t[0]])] + PathPieces(Some(t[0]), t[1..])
    ensures t == [t[0]] + t[1..]
  {
  }

  /** Only paths are removed; everything else survives, in order. */
  lemma {:induction false} OnlyPathsAreRemoved(prev: Option<char>, t: string)
    ensures Joined(PathPieces(prev, t)) == t
    ensures Rendered(PathPieces(prev, t), PATH_MARK) == PathsHidden(prev, t)
    decreases |t|
  {
    if t != "" {
      if PathAt(prev, t) > 0 {
        var end := PathEnd(t, PathAt(prev, t));
        RemovedPieceStep(prev, t, end);
        RemovedPathStep(prev, t, end);
        assert t == t[..end] + t[end..];
        OnlyPathsAreRemoved(Some(t[end - 1]), t[end..]);
        ConsPiece(Removed(t[..end]), PathPieces(Some(t[end - 1]), t[end..]), PATH_MARK);
      } else {
        KeptPieceStep(prev, t);
        KeptPathStep(prev, t);
        OnlyPathsAreRemoved(Some(t[0]), t[1..]);
        ConsPiece(Kept([t[0]]), PathPieces(Some(t[0]), t[1..]), PATH_MARK);
      }
    }
  }

  /** What is removed is paths, each up to a character that ends one. */
  lemma {:induction false} WholePathsAreRemoved(prev: Option<char>, t: string)
    ensures PathsCut(PathPieces(prev, t))
    decreases |t|
  {
    if t != "" {
      if PathAt(prev, t) > 0 {
        var end := PathEnd(t, PathAt(prev, t));
        RemovedPieceStep(prev, t, end);
        WholePathsAreRemoved(Some(t[end - 1]), t[end..]);
        FirstPathPiece(Some(t[end - 1]), t[end..]);
        PathEndMeans(t, PathAt(prev, t));
        CutIsPath(prev, t);
        HeadAndTail([Removed(t[..end])], PathPieces(Some(t[end - 1]), t[end..]));
      } else {
        KeptPieceStep(prev, t);
        WholePathsAreRemoved(Some(t[0]), t[1..]);
        HeadAndTail([Kept([t[0]])], PathPieces(Some(t[0]), t[1..]));
      }
    }
  }

  // ------------------------------------------------------------------ the scanner

  type Hidden = (Option<char>, string) -> string

  /** Redaction, as the scanner's proof knows it. */
  ghost predicate Hides(hidden: Hidden, mark: string) {
    mark == PATH_MARK && forall prev, t {:trigger PathsHidden(prev, t)} :: hidden(prev, t) == PathsHidden(prev, t)
  }

  /** What is still to come: the text kept since the cursor, and the rest with its paths hidden. */
  ghost function Rest(hidden: Hidden, input: string, cursor: nat, index: nat): string
    requires cursor <= index <= |input|
  {
    input[cursor..index] + hidden(Before(None, input, index), input[index..])
  }

  lemma NextIsKept(hidden: Hidden, mark: string, input: string, cursor: nat, index: nat)
    requires Hides(hidden, mark)
    requires cursor <= index < |input| && PathAt(Before(None, input, index), input[index..]) == 0
    ensures Rest(hidden, input, cursor, index) == Rest(hidden, input, cursor, index + 1)
  {
    var prev, t := Before(None, input, index), input[index..];
    OneKept(hidden, mark, prev, t);
    TailOfTail(input, index, 1);
    assert input[cursor..index + 1] == input[cursor..index] + [t[0]];
    Associative(input[cursor..index], [t[0]], hidden(Some(t[0]), t[1..]));
  }

  lemma OneKept(hidden: Hidden, mark: string, prev: Option<char>, t: string)
    requires Hides(hidden, mark) && t != "" && PathAt(prev, t) == 0
    ensures hidden(prev, t) == [t[0]] + hidden(Some(t[0]), t[1..])
  {
    KeptPathStep(prev, t);
    assert hidden(prev, t) == PathsHidden(prev, t);
    assert hidden(Some(t[0]), t[1..]) == PathsHidden(Some(t[0]), t[1..]);
  }

  lemma OneRemoved(hidden: Hidden, mark: string, prev: Option<char>, t: string, end: nat)
    requires Hides(hidden, mark) && t != "" && PathAt(prev, t) > 0 && end == PathEnd(t, PathAt(prev, t))
    ensures hidden(prev, t) == mark + hidden(Some(t[end - 1]), t[end..])
  {
    RemovedPathStep(prev, t, end);
    assert hidden(prev, t) == PathsHidden(prev, t);
    assert hidden(Some(t[end - 1]), t[end..]) == PathsHidden(Some(t[end - 1]), t[end..]);
  }

  lemma {:induction false} PathEndShift(input: string, index: nat, from: nat)
    requires index + from <= |input|
    ensures PathEnd(input[index..], from) == PathEnd(input, index + from) - index
    decreases |input| - from
  {
    if index + from < |input| {
      assert input[index..][from] == input[index + from];
      if !Stops(input[index + from]) {
        PathEndShift(input, index, from + 1);
      }
    }
  }

  lemma RestAfterPath(hidden: Hidden, mark: string, output: string, input: string, cursor: nat, index: nat,
                      length: nat, end: nat)
    requires Hides(hidden, mark)
    requires cursor <= index < |input| && length == PathAt(Before(None, input, index), input[index..]) && length > 0
    requires end == PathEnd(input, index + length)
    ensures output + Rest(hidden, input, cursor, index) ==
            output + input[cursor..index] + mark + Rest(hidden, input, end, end)
  {
    PathEndShift(input, index, length);
    OneRemoved(hidden, mark, Before(None, input, index), input[index..], end - index);
    assert input[index..][end - index - 1] == input[end - 1];
    TailOfTail(input, index, end - index);
    Shift(output, input[cursor..index], mark, hidden(Before(None, input, end), input[end..]));
    assert input[end..end] == "";
  }

  lemma Shift(a: string, b: string, c: string, d: string)
    ensures a + (b + (c + d)) == a + b + c + ("" + d)
  {
  }

  method SkipPath(input: string, from: nat) returns (end: nat)
    requires from <= |input|
    ensures end == PathEnd(input, from)
  {
    end := from;
    while end < |input| && !Stops(input[end])
      invariant from <= end <= |input| && PathEnd(input, end) == PathEnd(input, from)
    {
      end := end + 1;
    }
  }

  method HidePaths(input: string, mark: string, ghost hidden: Hidden) returns (output: string)
    requires Hides(hidden, mark)
    ensures output == hidden(None, input)
  {
    output := "";
    var cursor: nat, index: nat := 0, 0;
    assert input[0..] == input && input[0..0] == "";
    while index < |input|
      invariant cursor <= index <= |input|
      invariant output + Rest(hidden, input, cursor, index) == hidden(None, input)
    {
      var length := Measure(input, index);
      if length > 0 {
        var end := SkipPath(input, index + length);
        RestAfterPath(hidden, mark, output, input, cursor, index, length, end);
        output := output + input[cursor..index];
        output := output + mark;
        cursor, index := end, end;
      } else {
        NextIsKept(hidden, mark, input, cursor, index);
        index := index + 1;
      }
    }
    RestAtEnd(hidden, mark, input, cursor);
    output := output + input[cursor..];
  }

  lemma RestAtEnd(hidden: Hidden, mark: string, input: string, cursor: nat)
    requires Hides(hidden, mark) && cursor <= |input|
    ensures Rest(hidden, input, cursor, |input|) == input[cursor..]
  {
    var prev := Before(None, input, |input|);
    assert input[|input|..] == "" && input[cursor..|input|] == input[cursor..];
    assert hidden(prev, "") == PathsHidden(prev, "");
  }

  // ------------------------------------------------------------------ what a path is

  predicate LetterAt(s: string, i: nat) {
    i < |s| && ('a' <= s[i] <= 'z' || 'A' <= s[i] <= 'Z')
  }

  predicate OneOfAt(s: string, i: nat, chars: string) {
    i < |s| && s[i] in chars
  }

  /** A drive letter, a colon and a slash of either kind. */
  predicate DriveAt(s: string, i: nat) {
    LetterAt(s, i) && OneOfAt(s, i + 1, ":") && OneOfAt(s, i + 2, "/\\")
  }

  /** Nothing, white space, a quote, an opening bracket or an equals sign comes before. */
  predicate WordStartsAt(s: string, i: nat) {
    i == 0 || OneOfAt(s, i - 1, " \t\n\r'\"([{=") || (i <= |s| && s[i - 1] as int == 12)
  }

  predicate DoubledAt(s: string, i: nat) {
    (OneOfAt(s, i, "/") && OneOfAt(s, i + 1, "/")) || (OneOfAt(s, i, "\\") && OneOfAt(s, i + 1, "\\"))
  }

  /** An absolute path starts: a drive anywhere; two slashes of one kind, or one slash and
      something after it, at the start of a word. */
  predicate AbsoluteAt(s: string, i: nat) {
    || DriveAt(s, i)
    || (WordStartsAt(s, i) && (DoubledAt(s, i) || (OneOfAt(s, i, "/") && i + 1 < |s|)))
  }

  lemma PathTestMeans(s: string, i: nat)
    requires i <= |s|
    ensures PathAt(Before(None, s, i), s[i..]) > 0 <==> AbsoluteAt(s, i)
  {
    var t := s[i..];
    assert forall k :: 0 <= k < |t| ==> t[k] == s[i + k];
    assert AtBoundary(Before(None, s, i)) <==> WordStartsAt(s, i);
    assert WindowsPath(t) <==> DriveAt(s, i);
    assert NetworkPath(t) <==> DoubledAt(s, i);
  }

  /** A path goes on up to white space, a quote, a comma, a semicolon or a closing bracket. */
  lemma StopsAre(c: char)
    ensures Stops(c) <==> c in " \t\n\r'\"`,;)]}<>" || c as int == 12
  {
  }

  /** Afterwards no absolute path starts anywhere. */
  method RedactAbsolutePaths(input: string) returns (output: string)
    ensures output == PathsHidden(None, input)
    ensures forall i: nat :: i <= |output| ==> !AbsoluteAt(output, i)
  {
    forall i: nat | i <= |PathsHidden(None, input)|
      ensures !AbsoluteAt(PathsHidden(None, input), i)
    {
      PathsAreGone(input, i);
      PathTestMeans(PathsHidden(None, input), i);
    }
    ghost var hidden := (prev: Option<char>, t: string) => PathsHidden(prev, t);
    output := HidePaths(input, PATH_MARK, hidden);
  }

  /** The path test at a position, read off the bytes around it. */
  method Measure(input: string, index: nat) returns (length: nat)
    requires index < |input|
    ensures length == PathAt(Before(None, input, index), input[index..])
  {
    var atBoundary := index == 0 || Opens(input[index - 1]);
    var windows := index + 2 < |input| && IsAlphabetic(input[index]) && input[index + 1] == ':' && Slash(input[index + 2]);
    var network := index + 1 < |input| && ((input[index] == '\\' && input[index + 1] == '\\')
                                           || (input[index] == '/' && input[index + 1] == '/'));
    var unix := input[index] == '/' && index + 1 < |input| && input[index + 1] != '/' && atBoundary;
    if windows || (atBoundary && (network || unix)) {
      return if windows then 3 else if network then 2 else 1;
    }
    return 0;
  }
}
