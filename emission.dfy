/**
 What the emitter appends to the output, as functions of the cursor state:
 the leading whitespace of a token, the text written for a drained comment,
 and which queued comments are drained before an ordinary token.
 */
module Emission {
  import opened Tokens
  import opened Spacing
  import opened IndentStack

  /**
   The whitespace written before a token. Mid-line, comments and ordinary
   tokens alike are spaced by the token spacing policy.
   */
  function SpaceBefore(onNewLine: bool, depth: nat, t: Token, previous: string): string
  {
    if onNewLine then
      (if depth > 0 then Repeat(SpaceIndent, depth) else "")
    else if InsertSpaceBeforeToken(t.text, previous) then " "
    else ""
  }

  /**
   At the start of a line the whitespace is the indentation of the rendered
   depth, two spaces per level, and never a separating space; mid-line it
   is a single space exactly when the spacing policy asks for one.
   */
  lemma SpaceBeforeShape(onNewLine: bool, depth: nat, t: Token, previous: string)
    ensures var r := SpaceBefore(onNewLine, depth, t, previous);
            (onNewLine ==> |r| == 2 * depth && forall i :: 0 <= i < |r| ==> r[i] == ' ') &&
            (!onNewLine ==> r == (if InsertSpaceBeforeToken(t.text, previous) then " " else ""))
  {
    RepeatIndentShape(depth);
  }

  /** The text written for one comment; a line comment ends the line. */
  function CommentText(onNewLine: bool, depth: nat, previous: string, c: Token): string {
    SpaceBefore(onNewLine, depth, c, previous) + c.text + (if IsLineComment(c) then "\n" else "")
  }

  /** Whether the cursor is at a line start after writing the comments `cs`. */
  function OnNewLineAfter(onNewLine: bool, cs: seq<Token>): bool {
    if cs == [] then onNewLine else IsLineComment(cs[|cs| - 1])
  }

  /** The already-bumped flag after writing `cs`: any line comment resets it. */
  function LineIndentAfter(increased: bool, cs: seq<Token>): bool {
    if cs == [] then increased
    else LineIndentAfter(increased, cs[..|cs| - 1]) && !IsLineComment(cs[|cs| - 1])
  }

  /**
   The text written for the comments `cs` in order. Comments do not change
   the previous-token text, so every one is spaced against `previous`.
   */
  function EmitComments(onNewLine: bool, depth: nat, previous: string, cs: seq<Token>): string
  {
    if cs == [] then ""
    else
      var init := cs[..|cs| - 1];
      EmitComments(onNewLine, depth, previous, init)
        + CommentText(OnNewLineAfter(onNewLine, init), depth, previous, cs[|cs| - 1])
  }

  /** Writing one more comment extends the text, the cursor and the flag by that comment alone. */
  lemma EmitCommentsSnoc(onNewLine: bool, increased: bool, depth: nat, previous: string, cs: seq<Token>, c: Token)
    ensures EmitComments(onNewLine, depth, previous, cs + [c]) ==
              EmitComments(onNewLine, depth, previous, cs) + CommentText(OnNewLineAfter(onNewLine, cs), depth, previous, c)
    ensures OnNewLineAfter(onNewLine, cs + [c]) == IsLineComment(c)
    ensures LineIndentAfter(increased, cs + [c]) == (LineIndentAfter(increased, cs) && !IsLineComment(c))
  {
    assert (cs + [c])[..|cs|] == cs;
  }

  /** One step of the drain loop, on the whole output: the text so far extended by one comment. */
  lemma EmitStep(prefix: string, onNewLine: bool, depth: nat, previous: string, cs: seq<Token>, c: Token,
                 before: string, after: string)
    requires before == prefix + EmitComments(onNewLine, depth, previous, cs)
    requires after == before + CommentText(OnNewLineAfter(onNewLine, cs), depth, previous, c)
    ensures after == prefix + EmitComments(onNewLine, depth, previous, cs + [c])
  {
    EmitCommentsSnoc(onNewLine, false, depth, previous, cs, c);
  }

  /** The flag survives a run of comments exactly when none of them is a line comment. */
  lemma {:induction false} LineIndentAfterNoLineComment(increased: bool, cs: seq<Token>)
    ensures LineIndentAfter(increased, cs) == (increased && forall i :: 0 <= i < |cs| ==> !IsLineComment(cs[i]))
  {
    if cs != [] {
      LineIndentAfterNoLineComment(increased, cs[..|cs| - 1]);
    }
  }

  /** The emitted text is at least as long as all comment texts together. */
  lemma {:induction false} EmitCommentsLength(onNewLine: bool, depth: nat, previous: string, cs: seq<Token>)
    ensures |EmitComments(onNewLine, depth, previous, cs)| >= SumLengths(cs)
  {
    if cs != [] {
      EmitCommentsLength(onNewLine, depth, previous, cs[..|cs| - 1]);
    }
  }

  /** The emitted text ends with the last comment's text, followed by a newline for a line comment. */
  lemma EmitCommentsEndsWithLast(onNewLine: bool, depth: nat, previous: string, cs: seq<Token>)
    requires cs != []
    ensures var e := EmitComments(onNewLine, depth, previous, cs);
            var last := cs[|cs| - 1].text + (if IsLineComment(cs[|cs| - 1]) then "\n" else "");
            |last| <= |e| && e[|e| - |last|..] == last
  {
    var init := cs[..|cs| - 1];
    var c := cs[|cs| - 1];
    var last := c.text + (if IsLineComment(c) then "\n" else "");
    var e0 := EmitComments(onNewLine, depth, previous, init) + SpaceBefore(OnNewLineAfter(onNewLine, init), depth, c, previous);
    assert EmitComments(onNewLine, depth, previous, cs) == e0 + last;
  }

  /** The text written for the first `j` comments is a prefix of the text written for all of them. */
  lemma {:induction false} EmitCommentsPrefix(onNewLine: bool, depth: nat, previous: string, cs: seq<Token>, j: nat)
    requires j <= |cs|
    ensures EmitComments(onNewLine, depth, previous, cs[..j]) <= EmitComments(onNewLine, depth, previous, cs)
  {
    if j < |cs| {
      var init := cs[..|cs| - 1];
      assert cs[..j] == init[..j];
      EmitCommentsPrefix(onNewLine, depth, previous, init, j);
    } else {
      assert cs[..j] == cs;
    }
  }

  /**
   Every comment of the run is written: the text up to and including
   comment `i` ends with that comment's text (and its newline, for a line
   comment) and is a prefix of the whole, so comment texts appear in queue
   order.
   */
  lemma EmitCommentsWritesEach(onNewLine: bool, depth: nat, previous: string, cs: seq<Token>, i: nat)
    requires i < |cs|
    ensures var upTo := EmitComments(onNewLine, depth, previous, cs[..i + 1]);
            var t := cs[i].text + (if IsLineComment(cs[i]) then "\n" else "");
            |t| <= |upTo| && upTo[|upTo| - |t|..] == t &&
            upTo <= EmitComments(onNewLine, depth, previous, cs)
  {
    assert cs[..i + 1][i] == cs[i];
    EmitCommentsEndsWithLast(onNewLine, depth, previous, cs[..i + 1]);
    EmitCommentsPrefix(onNewLine, depth, previous, cs, i + 1);
  }

  /** Total length of the texts of `cs`. */
  function SumLengths(cs: seq<Token>): nat {
    if cs == [] then 0 else SumLengths(cs[..|cs| - 1]) + |cs[|cs| - 1].text|
  }

  /** The guard under which the front comment is drained before token index `tok`. */
  predicate Drainable(c: Token, previousIdx: int, tok: int) {
    tok > c.index && c.index > previousIdx
  }

  /**
   How many comments are popped from the front of `q` before the token with
   index `tok`: the longest prefix whose indices lie strictly between the
   previous token's index and `tok`.
   */
  function DrainCount(q: seq<Token>, previousIdx: int, tok: int): (r: nat)
    ensures r <= |q|
    ensures forall i :: 0 <= i < r ==> Drainable(q[i], previousIdx, tok)
    ensures r < |q| ==> !Drainable(q[r], previousIdx, tok)
  {
    if q == [] || !Drainable(q[0], previousIdx, tok) then 0
    else 1 + DrainCount(q[1..], previousIdx, tok)
  }

  /** Every comment of `cs` passes the drain guard. */
  predicate AllDrainable(cs: seq<Token>, previousIdx: int, tok: int) {
    if cs == [] then true
    else AllDrainable(cs[..|cs| - 1], previousIdx, tok) && Drainable(cs[|cs| - 1], previousIdx, tok)
  }

  lemma {:induction false} AllDrainableAt(cs: seq<Token>, previousIdx: int, tok: int, i: nat)
    requires AllDrainable(cs, previousIdx, tok) && i < |cs|
    ensures Drainable(cs[i], previousIdx, tok)
  {
    if i < |cs| - 1 {
      AllDrainableAt(cs[..|cs| - 1], previousIdx, tok, i);
    }
  }

  /**
   A prefix of drainable comments followed by the end of the queue or by a
   comment that fails the guard is exactly what the drain loop pops.
   */
  lemma {:induction false} DrainCountOfPrefix(q: seq<Token>, previousIdx: int, tok: int, j: nat)
    requires j <= |q|
    requires AllDrainable(q[..j], previousIdx, tok)
    requires j < |q| ==> !Drainable(q[j], previousIdx, tok)
    ensures DrainCount(q, previousIdx, tok) == j
  {
    var k := DrainCount(q, previousIdx, tok);
    if k < j {
      AllDrainableAt(q[..j], previousIdx, tok, k);
    }
  }

  /**
   For a queue in lexer order that lies wholly after the previous token, a
   comment is drained before the token exactly when it precedes the token,
   and what stays queued is still in lexer order and lies wholly after the
   token, so the same holds again at the next terminal.
   */
  lemma DrainedIffBefore(q: seq<Token>, previousIdx: int, tok: int)
    requires StrictlyIncreasing(q) && AllAfter(q, previousIdx) && IndexFree(q, tok)
    ensures forall i :: 0 <= i < |q| ==> (i < DrainCount(q, previousIdx, tok) <==> q[i].index < tok)
    ensures StrictlyIncreasing(q[DrainCount(q, previousIdx, tok)..])
    ensures AllAfter(q[DrainCount(q, previousIdx, tok)..], tok)
  {
    var k := DrainCount(q, previousIdx, tok);
    if k < |q| {
      assert q[k].index > tok;
      forall i | k <= i < |q|
        ensures q[i].index > tok
      {
        if i > k {
          assert q[k].index < q[i].index;
        }
      }
    }
  }
}
