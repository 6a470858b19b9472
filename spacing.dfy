/**
 Spacing policy: whether a space belongs between the previously emitted
 token text and the current one, decided from the two literal texts alone.
 */
module Spacing {

  /** Texts that generally take no space after them. */
  const NoSpaceAfterTokens: seq<string> := ["(", "=", ".", "[", "{", "-", "^", "*", "/", ";"]

  /** Texts that generally take no space before them. */
  const NoSpaceBeforeTokens: seq<string> := ["(", ")", "[", "]", "}", ";", "=", ",", ".", "-", "^", "*", "/"]

  /** Linear scan of a token group: true as soon as an element equals `token`. */
  method TokenInGroup(token: string, group: seq<string>) returns (found: bool)
    ensures found <==> token in group
  {
    for i := 0 to |group|
      invariant token !in group[..i]
    {
      if token == group[i] {
        return true;
      }
    }
    return false;
  }

  /**
   Whether a space goes before `current` when `previous` was emitted just
   before it on the same line. An opening parenthesis right after the
   keyword `annotation` is always spaced; every other pair, the opening
   parenthesis included, falls through to the two tables.
   */
  function InsertSpaceBeforeToken(current: string, previous: string): bool
  {
    if current == "(" && previous == "annotation" then
      true
    else
      previous !in NoSpaceAfterTokens && current !in NoSpaceBeforeTokens
  }

  /** An opening parenthesis is spaced exactly when it follows `annotation`. */
  lemma OpenParenSpacedOnlyAfterAnnotation(previous: string)
    ensures InsertSpaceBeforeToken("(", previous) <==> previous == "annotation"
  {
    assert "(" in NoSpaceBeforeTokens;
  }

  /** `=` sits in both tables, so it binds tightly on both sides. */
  lemma EqualsBindsTightly(other: string)
    ensures !InsertSpaceBeforeToken("=", other)
    ensures !InsertSpaceBeforeToken(other, "=")
  {
    assert "=" in NoSpaceBeforeTokens;
    assert "=" in NoSpaceAfterTokens;
  }

  /** Closing brackets, separators and terminators are never preceded by a space. */
  lemma ClosersNeverSpaced(current: string, previous: string)
    requires current in [")", "]", "}", ";", ","]
    ensures !InsertSpaceBeforeToken(current, previous)
  {
    assert current in NoSpaceBeforeTokens;
  }

  /** Nothing is spaced after an opening bracket. */
  lemma NothingSpacedAfterOpener(current: string, previous: string)
    requires previous in ["(", "[", "{"]
    ensures !InsertSpaceBeforeToken(current, previous)
  {
    assert previous in NoSpaceAfterTokens;
  }

  /** The statement `a=1;` is emitted without any space between its tokens. */
  lemma AssignmentUnspaced()
    ensures !InsertSpaceBeforeToken("=", "a")
    ensures !InsertSpaceBeforeToken("1", "=")
    ensures !InsertSpaceBeforeToken(";", "1")
  {
    EqualsBindsTightly("a");
    EqualsBindsTightly("1");
    ClosersNeverSpaced(";", "1");
  }

  /** Position `i` of `s` opens a comment: two slashes, or a slash and a star, start there. */
  predicate OpensComment(s: string, i: int) {
    0 <= i && i + 1 < |s| && s[i] == '/' && (s[i + 1] == '/' || s[i + 1] == '*')
  }

  /** What is written for `previous` followed by `current` on one line. */
  function Joined(previous: string, current: string, spaced: bool): string {
    previous + (if spaced then " " else "") + current
  }

  /**
   As written, a comment is spaced by the same tables as an ordinary token,
   so a comment that follows the division operator is glued to it and the
   two slashes open a new comment that swallows the operator.
   */
  lemma CommentAfterDivisionGlued(comment: string)
    requires |comment| >= 2 && comment[0] == '/' && (comment[1] == '/' || comment[1] == '*')
    ensures !InsertSpaceBeforeToken(comment, "/")
    ensures OpensComment(Joined("/", comment, InsertSpaceBeforeToken(comment, "/")), 0)
  {
    assert "/" in NoSpaceAfterTokens;
  }

  /**
   Spacing for a comment token: as for an ordinary token, and in addition
   always a space after a text that ends in `/`.
   */
  function InsertSpaceBeforeComment(comment: string, previous: string): (r: bool)
    ensures InsertSpaceBeforeToken(comment, previous) ==> r
  {
    InsertSpaceBeforeToken(comment, previous) || (|previous| > 0 && previous[|previous| - 1] == '/')
  }

  /**
   With the comment spacing, the emitted previous text and the comment never
   run together into a new comment opener at their junction.
   */
  lemma CommentNeverGlued(comment: string, previous: string)
    requires |previous| > 0
    ensures !OpensComment(Joined(previous, comment, InsertSpaceBeforeComment(comment, previous)), |previous| - 1)
  {
    var s := Joined(previous, comment, InsertSpaceBeforeComment(comment, previous));
    if previous[|previous| - 1] == '/' {
      assert s[|previous|] == ' ';
    } else {
      assert s[|previous| - 1] == previous[|previous| - 1];
    }
  }
}
