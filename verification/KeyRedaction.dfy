/**
 Dropping of private keys from text (src/tools/mod.rs, `redact_secrets`): from a line that
 begins a key to the one that ends it, a single mark is left. What is done to the other
 lines is a parameter.
 */
module KeyRedaction {
  import opened Sequences
  import opened TextPieces
  import opened TokenRedaction

  const KEY_MARK := "[REDACTED private key]"

  /** A text occurs somewhere, in any ASCII case. */
  predicate Contains(line: string, text: string) {
    Heads(line, text) || (line != "" && Contains(line[1..], text))
  }

  predicate Begins(line: string) {
    Contains(line, "-----begin ") && Contains(line, "private key-----")
  }

  predicate Ends(line: string) {
    Contains(line, "-----end ") && Contains(line, "private key-----")
  }

  lemma {:induction false} ContainsMeansOccurs(line: string, text: string)
    requires forall k :: 0 <= k < |text| ==> !('A' <= text[k] <= 'Z')
    ensures Contains(line, text) <==> exists i: nat :: OccursAt(line, i, text)
  {
    assert line[0..] == line;
    HeadsMeansOccurs(line, 0, text);
    if line != "" {
      ContainsMeansOccurs(line[1..], text);
      forall i: nat
        ensures OccursAt(line[1..], i, text) <==> OccursAt(line, i + 1, text)
      {
      }
      if exists i: nat :: OccursAt(line, i, text) {
        var i: nat :| OccursAt(line, i, text);
        assert i > 0 ==> OccursAt(line[1..], i - 1, text);
      }
    }
  }

  /** A line begins or ends a key when both halves of the marker occur in it, in any ASCII case. */
  lemma MarkersAre(line: string)
    ensures Begins(line) <==> (exists i: nat :: OccursAt(line, i, "-----begin "))
                              && (exists i: nat :: OccursAt(line, i, "private key-----"))
    ensures Ends(line) <==> (exists i: nat :: OccursAt(line, i, "-----end "))
                            && (exists i: nat :: OccursAt(line, i, "private key-----"))
  {
    ContainsMeansOccurs(line, "-----begin ");
    ContainsMeansOccurs(line, "-----end ");
    ContainsMeansOccurs(line, "private key-----");
  }

  type Lines = seq<string>

  function Redacted(lines: Lines, inKey: bool, plain: string -> string): Lines {
    if lines == [] then []
    else if !inKey && Begins(lines[0]) then [KEY_MARK] + Redacted(lines[1..], true, plain)
    else if inKey then Redacted(lines[1..], !Ends(lines[0]), plain)
    else [plain(lines[0])] + Redacted(lines[1..], false, plain)
  }

  /** Whether a key is still open after some lines. */
  predicate OpenAfter(lines: Lines, inKey: bool) {
    if lines == [] then inKey
    else OpenAfter(lines[1..], if inKey then !Ends(lines[0]) else Begins(lines[0]))
  }

  lemma {:induction false} RedactedInTwo(a: Lines, b: Lines, inKey: bool, plain: string -> string)
    ensures Redacted(a + b, inKey, plain) == Redacted(a, inKey, plain) + Redacted(b, OpenAfter(a, inKey), plain)
    ensures OpenAfter(a + b, inKey) == OpenAfter(b, OpenAfter(a, inKey))
  {
    if a == [] {
      assert a + b == b;
    } else {
      HeadAndTail(a, b);
      var next := if inKey then !Ends(a[0]) else Begins(a[0]);
      RedactedInTwo(a[1..], b, next, plain);
      Associative([KEY_MARK], Redacted(a[1..], next, plain), Redacted(b, OpenAfter(a, inKey), plain));
      Associative([plain(a[0])], Redacted(a[1..], next, plain), Redacted(b, OpenAfter(a, inKey), plain));
    }
  }

  lemma {:induction false} BodyIsDropped(body: Lines, plain: string -> string)
    requires forall i :: 0 <= i < |body| ==> !Ends(body[i])
    ensures Redacted(body, true, plain) == [] && OpenAfter(body, true)
  {
    if body != [] {
      BodyIsDropped(body[1..], plain);
    }
  }

  lemma KeyOpens(begin: string, rest: Lines, plain: string -> string)
    requires Begins(begin)
    ensures Redacted([begin] + rest, false, plain) == [KEY_MARK] + Redacted(rest, true, plain)
  {
  }

  lemma KeyCloses(end: string, after: Lines, plain: string -> string)
    requires Ends(end)
    ensures Redacted([end] + after, true, plain) == Redacted(after, false, plain)
  {
  }

  lemma KeyBecomesAMark(begin: string, body: Lines, end: string, after: Lines, plain: string -> string)
    requires Begins(begin) && Ends(end) && forall i :: 0 <= i < |body| ==> !Ends(body[i])
    ensures Redacted([begin] + (body + ([end] + after)), false, plain) == [KEY_MARK] + Redacted(after, false, plain)
  {
    KeyCloses(end, after, plain);
    BodyIsSkipped(body, [end] + after, Redacted(after, false, plain), plain);
    KeyOpens(begin, body + ([end] + after), plain);
  }

  lemma BodyIsSkipped(body: Lines, rest: Lines, redacted: Lines, plain: string -> string)
    requires forall i :: 0 <= i < |body| ==> !Ends(body[i])
    requires Redacted(rest, true, plain) == redacted
    ensures Redacted(body + rest, true, plain) == redacted
  {
    RedactedInTwo(body, rest, true, plain);
    BodyIsDropped(body, plain);
    assert [] + redacted == redacted;
  }

  /** The output does not depend on a key's body: whatever stands between the two lines, one
      mark stands for all of it. */
  lemma KeyBodyLeavesNoTrace(before: Lines, begin: string, body: Lines, end: string, after: Lines,
                             plain: string -> string)
    requires !OpenAfter(before, false) && Begins(begin) && Ends(end)
    requires forall i :: 0 <= i < |body| ==> !Ends(body[i])
    ensures Redacted(before + ([begin] + (body + ([end] + after))), false, plain) ==
            Redacted(before, false, plain) + ([KEY_MARK] + Redacted(after, false, plain))
  {
    KeyBecomesAMark(begin, body, end, after, plain);
    RedactedInTwo(before, [begin] + (body + ([end] + after)), false, plain);
  }

  /** An unfinished key hides everything after its first line. */
  lemma UnfinishedKeyHidesTheRest(before: Lines, begin: string, body: Lines, plain: string -> string)
    requires !OpenAfter(before, false) && Begins(begin) && forall i :: 0 <= i < |body| ==> !Ends(body[i])
    ensures Redacted(before + ([begin] + body), false, plain) == Redacted(before, false, plain) + [KEY_MARK]
  {
    RedactedInTwo(before, [begin] + body, false, plain);
    KeyOpens(begin, body, plain);
    BodyIsDropped(body, plain);
  }

  method RedactLines(lines: Lines, plain: string -> string) returns (output: Lines)
    ensures output == Redacted(lines, false, plain)
  {
    output := [];
    var inPrivateKey := false;
    var i := 0;
    while i < |lines|
      invariant i <= |lines|
      invariant output == Redacted(lines[..i], false, plain) && inPrivateKey == OpenAfter(lines[..i], false)
    {
      OneMoreLine(lines, i, plain);
      if !inPrivateKey && Begins(lines[i]) {
        output := output + [KEY_MARK];
        inPrivateKey := true;
      } else if inPrivateKey {
        if Ends(lines[i]) {
          inPrivateKey := false;
        }
      } else {
        output := output + [plain(lines[i])];
      }
      i := i + 1;
    }
    assert lines[..i] == lines;
  }

  lemma OneMoreLine(lines: Lines, i: nat, plain: string -> string)
    requires i < |lines|
    ensures var open := OpenAfter(lines[..i], false);
            && Redacted(lines[..i + 1], false, plain) ==
               Redacted(lines[..i], false, plain) + (if !open && Begins(lines[i]) then [KEY_MARK]
                                                     else if open then [] else [plain(lines[i])])
            && OpenAfter(lines[..i + 1], false) == if open then !Ends(lines[i]) else Begins(lines[i])
  {
    assert lines[..i + 1] == lines[..i] + [lines[i]];
    RedactedInTwo(lines[..i], [lines[i]], false, plain);
    assert [lines[i]][1..] == [];
  }
}
