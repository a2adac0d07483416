/**
 Text cut into the pieces a redaction keeps and those it replaces.
 */
module TextPieces {
  predicate IsDigit(c: char) {
    '0' <= c <= '9'
  }

  predicate IsAlphabetic(c: char) {
    'a' <= c <= 'z' || 'A' <= c <= 'Z'
  }

  /** A character is a lower-case one of ASCII, or its capital. */
  predicate SameLetter(c: char, lower: char) {
    c == lower || ('A' <= c <= 'Z' && c as int + 32 == lower as int)
  }

  /** A lower-case text occurs at a position, in any ASCII case. */
  predicate OccursAt(s: string, i: nat, text: string) {
    i + |text| <= |s| && forall k :: 0 <= k < |text| ==> SameLetter(s[i + k], text[k])
  }

  datatype Piece = Kept(text: string) | Removed(text: string)

  function Joined(pieces: seq<Piece>): string {
    if pieces == [] then "" else pieces[0].text + Joined(pieces[1..])
  }

  function Rendered(pieces: seq<Piece>, mark: string): string {
    if pieces == [] then "" else (if pieces[0].Kept? then pieces[0].text else mark) + Rendered(pieces[1..], mark)
  }

  lemma ConsPiece(piece: Piece, rest: seq<Piece>, mark: string)
    ensures Joined([piece] + rest) == piece.text + Joined(rest)
    ensures Rendered([piece] + rest, mark) == (if piece.Kept? then piece.text else mark) + Rendered(rest, mark)
  {
  }

  /** Two texts start with the same characters. */
  predicate Agree(s: string, t: string, n: nat) {
    n <= |s| && n <= |t| && forall i :: 0 <= i < n ==> s[i] == t[i]
  }

  lemma AgreeOnMore(c: char, s: string, t: string, n: nat)
    requires Agree(s, t, n)
    ensures Agree([c] + s, [c] + t, n + 1)
  {
  }
}
