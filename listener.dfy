/**
 The formatting listener: the cursor state, indentation stack, comment
 queue and context counters of one formatting run, updated in place by the
 rule-enter, rule-exit and terminal callbacks of the tree walk. The output
 sink is an append-only string.
 */
module Listener {
  import opened Tokens
  import opened Spacing
  import opened Layout
  import opened IndentStack
  import opened Emission

  class ModelicaListener {
    /** Everything written so far. */
    var out: string
    var indentationStack: seq<Indent>
    /** True when the write position follows a newline. */
    var onNewLine: bool
    /** True when the indentation has already been increased on this line. */
    var lineIndentIncreased: bool
    var previousTokenText: string
    var previousTokenIdx: int
    /** Comments still to be re-inserted, in lexer order. */
    var commentTokens: seq<Token>
    var inAnnotation: int
    var inNamedArgument: int
    var inVector: int
    /** Indent parenthesised call arguments as well (off by default). */
    const alwaysIndentParens: bool
    /** The rendered depth when the current line began. */
    ghost var lineBase: nat

    /**
     The indent cap: since the current line began, the rendered depth has
     grown by at most the one increase the line is allowed.
     */
    ghost predicate Valid()
      reads this`indentationStack, this`lineBase, this`lineIndentIncreased
    {
      Rendered(indentationStack) <= lineBase + (if lineIndentIncreased then 1 else 0)
    }

    function Context(): Counters
      reads this`inAnnotation, this`inNamedArgument, this`inVector
    {
      Counters(inAnnotation, inNamedArgument, inVector)
    }

    /** Whether a rule of this kind pushes an indentation entry in the current context. */
    function IndentsHere(kind: RuleKind): bool
      reads this`inAnnotation, this`inNamedArgument, this`inVector
    {
      InsertIndentBefore(kind, alwaysIndentParens, Context())
    }

    /** Whether entering a rule of this kind writes a line break now. */
    function BreaksLine(kind: RuleKind): bool
      reads this`inAnnotation, this`inNamedArgument, this`inVector, this`onNewLine
    {
      (InsertNewlineBefore(kind) || IndentsHere(kind)) && !onNewLine
    }

    constructor (commentTokens: seq<Token>, alwaysIndentParens: bool)
      ensures Valid()
      ensures out == "" && indentationStack == [] && onNewLine && !lineIndentIncreased
      ensures previousTokenText == "" && previousTokenIdx == -1
      ensures this.commentTokens == commentTokens && Context() == Outside
      ensures this.alwaysIndentParens == alwaysIndentParens
    {
      out := "";
      indentationStack := [];
      onNewLine := true;
      lineIndentIncreased := false;
      previousTokenText := "";
      previousTokenIdx := -1;
      this.commentTokens := commentTokens;
      inAnnotation, inNamedArgument, inVector := 0, 0, 0;
      this.alwaysIndentParens := alwaysIndentParens;
      lineBase := 0;
    }

    /** The current number of rendered indentations. */
    method Indentation() returns (n: nat)
      ensures n == Rendered(indentationStack)
    {
      n := 0;
      for i := 0 to |indentationStack|
        invariant n == Rendered(indentationStack[..i])
      {
        assert indentationStack[..i + 1][..i] == indentationStack[..i];
        if indentationStack[i] == RenderIndent {
          n := n + 1;
        }
      }
      assert indentationStack[..|indentationStack|] == indentationStack;
    }

    /** Push one entry: rendered only if this line has not been indented yet. */
    method MaybeIndent()
      requires Valid()
      modifies this`indentationStack, this`lineIndentIncreased
      ensures Valid()
      ensures indentationStack ==
                old(indentationStack) + [if old(lineIndentIncreased) then IgnoreIndent else RenderIndent]
      ensures lineIndentIncreased
      ensures Rendered(indentationStack) <= lineBase + 1
    {
      if !lineIndentIncreased {
        RenderedPush(indentationStack, RenderIndent);
        indentationStack := indentationStack + [RenderIndent];
        lineIndentIncreased := true;
      } else {
        RenderedPush(indentationStack, IgnoreIndent);
        indentationStack := indentationStack + [IgnoreIndent];
      }
    }

    /** Pop the last entry, whichever tag it carries. */
    method MaybeDedent()
      requires Valid()
      requires indentationStack != []
      modifies this`indentationStack
      ensures Valid()
      ensures indentationStack == old(indentationStack)[..|old(indentationStack)| - 1]
    {
      RenderedPop(indentationStack);
      indentationStack := indentationStack[..|indentationStack| - 1];
    }

    /** End the line: the next write starts a line and may indent once more. */
    method WriteNewline()
      modifies this`out, this`onNewLine, this`lineIndentIncreased, this`lineBase
      ensures Valid()
      ensures out == old(out) + "\n"
      ensures onNewLine && !lineIndentIncreased && lineBase == Rendered(indentationStack)
    {
      out := out + "\n";
      onNewLine := true;
      lineIndentIncreased := false;
      lineBase := Rendered(indentationStack);
    }

    /**
     Write what precedes a token: at the start of a line its indentation,
     which is at most one unit deeper than when the line began; mid-line the
     separating space the spacing policy asks for.
     */
    method WriteSpaceBefore(t: Token)
      requires Valid()
      modifies this`out, this`onNewLine
      ensures out == old(out) + SpaceBefore(old(onNewLine), Rendered(indentationStack), t, previousTokenText)
      ensures old(onNewLine) ==> Rendered(indentationStack) <= lineBase + 1
      ensures !onNewLine
    {
      if onNewLine {
        var n := Indentation();
        if n > 0 {
          out := out + Repeat(SpaceIndent, n);
        }
        onNewLine := false;
      } else if InsertSpaceBeforeToken(t.text, previousTokenText) {
        out := out + " ";
      }
    }

    /** Write one comment; a line comment is followed by a newline. */
    method WriteComment(c: Token)
      requires Valid()
      modifies this`out, this`onNewLine, this`lineIndentIncreased, this`lineBase
      ensures Valid()
      ensures out == old(out) + CommentText(old(onNewLine), Rendered(indentationStack), previousTokenText, c)
      ensures onNewLine == IsLineComment(c)
      ensures lineIndentIncreased == (old(lineIndentIncreased) && !IsLineComment(c))
    {
      WriteSpaceBefore(c);
      out := out + c.text;
      if IsLineComment(c) {
        WriteNewline();
      }
    }

    /**
     The drain loop's state after the comments `drained` have been popped,
     when the loop started with queue `q0`, output `out0`, line-start flag
     `on0` and already-indented flag `inc0`.
     */
    ghost predicate DrainState(tokenIdx: int, q0: seq<Token>, out0: string, on0: bool, inc0: bool, drained: seq<Token>)
      reads this`indentationStack, this`lineBase, this`lineIndentIncreased, this`onNewLine, this`out
      reads this`commentTokens, this`previousTokenIdx, this`previousTokenText
    {
      Valid() &&
      q0 == drained + commentTokens &&
      AllDrainable(drained, previousTokenIdx, tokenIdx) &&
      out == out0 + EmitComments(on0, Rendered(indentationStack), previousTokenText, drained) &&
      onNewLine == OnNewLineAfter(on0, drained) &&
      lineIndentIncreased == LineIndentAfter(inc0, drained)
    }

    /** One turn of the drain loop: pop the front comment and write it. */
    method PopComment(tokenIdx: int, ghost q0: seq<Token>, ghost out0: string, ghost on0: bool, ghost inc0: bool,
                      ghost drained: seq<Token>)
      returns (ghost drainedNow: seq<Token>)
      requires DrainState(tokenIdx, q0, out0, on0, inc0, drained)
      requires commentTokens != [] && Drainable(commentTokens[0], previousTokenIdx, tokenIdx)
      modifies this`out, this`onNewLine, this`lineIndentIncreased, this`lineBase, this`commentTokens
      ensures DrainState(tokenIdx, q0, out0, on0, inc0, drainedNow)
      ensures |commentTokens| == |old(commentTokens)| - 1
    {
      var c := commentTokens[0];
      assert commentTokens == [c] + commentTokens[1..];
      EmitCommentsSnoc(on0, inc0, Rendered(indentationStack), previousTokenText, drained, c);
      commentTokens := commentTokens[1..];
      ghost var before := out;
      WriteComment(c);
      EmitStep(out0, on0, Rendered(indentationStack), previousTokenText, drained, c, before, out);
      drainedNow := drained + [c];
    }

    /**
     The comment loop at the head of a terminal visit: pop and write, in
     queue order, every front comment whose index lies strictly between the
     previous token's index and `tokenIdx`.
     */
    method FlushComments(tokenIdx: int)
      requires Valid()
      modifies this`out, this`onNewLine, this`lineIndentIncreased, this`lineBase, this`commentTokens
      ensures Valid()
      ensures var k := DrainCount(old(commentTokens), previousTokenIdx, tokenIdx);
              var drained := old(commentTokens)[..k];
              commentTokens == old(commentTokens)[k..] &&
              out == old(out) + EmitComments(old(onNewLine), Rendered(indentationStack), previousTokenText, drained) &&
              onNewLine == OnNewLineAfter(old(onNewLine), drained) &&
              lineIndentIncreased == LineIndentAfter(old(lineIndentIncreased), drained)
    {
      ghost var q0, out0, on0, inc0 := commentTokens, out, onNewLine, lineIndentIncreased;
      ghost var drained: seq<Token> := [];
      assert q0 == drained + commentTokens;
      while |commentTokens| > 0 && tokenIdx > commentTokens[0].index && commentTokens[0].index > previousTokenIdx
        invariant DrainState(tokenIdx, q0, out0, on0, inc0, drained)
        decreases |commentTokens|
      {
        drained := PopComment(tokenIdx, q0, out0, on0, inc0, drained);
      }
      assert drained == q0[..|drained|];
      DrainCountOfPrefix(q0, previousTokenIdx, tokenIdx, |drained|);
    }

    /**
     Emit an ordinary token: first every queued comment that lies between
     the previous token and this one, then the token with its leading
     whitespace, then a newline after a statement terminator.
     */
    method VisitTerminal(t: Token)
      requires Valid()
      modifies this`out, this`onNewLine, this`lineIndentIncreased, this`lineBase, this`commentTokens
      modifies this`previousTokenText, this`previousTokenIdx
      ensures Valid()
      ensures var k := DrainCount(old(commentTokens), old(previousTokenIdx), t.index);
              var drained := old(commentTokens)[..k];
              commentTokens == old(commentTokens)[k..] &&
              out == old(out)
                     + EmitComments(old(onNewLine), Rendered(indentationStack), old(previousTokenText), drained)
                     + SpaceBefore(OnNewLineAfter(old(onNewLine), drained), Rendered(indentationStack), t, old(previousTokenText))
                     + t.text
                     + (if t.text == ";" then "\n" else "") &&
              lineIndentIncreased == (t.text != ";" && LineIndentAfter(old(lineIndentIncreased), drained))
      ensures onNewLine == (t.text == ";")
      ensures previousTokenText == t.text && previousTokenIdx == t.index
    {
      FlushComments(t.index);
      WriteSpaceBefore(t);
      out := out + t.text;
      if t.text == ";" {
        WriteNewline();
      }
      previousTokenText := t.text;
      previousTokenIdx := t.index;
    }

    /**
     Entering a rule: a line break for the newline kinds and the indent
     kinds (at most one, and none at a line start), then an indentation
     entry for the indent kinds.
     */
    method EnterEveryRule(kind: RuleKind)
      requires Valid()
      modifies this`out, this`onNewLine, this`lineIndentIncreased, this`lineBase, this`indentationStack
      ensures Valid()
      ensures out == old(out) + (if old(BreaksLine(kind)) then "\n" else "")
      ensures onNewLine == (old(onNewLine) || old(BreaksLine(kind)))
      ensures indentationStack == old(indentationStack) +
                (if old(IndentsHere(kind))
                 then [if old(BreaksLine(kind)) || !old(lineIndentIncreased) then RenderIndent else IgnoreIndent]
                 else [])
      ensures lineIndentIncreased == (old(IndentsHere(kind)) || (old(lineIndentIncreased) && !old(BreaksLine(kind))))
    {
      if InsertNewlineBefore(kind) && !onNewLine {
        WriteNewline();
      }
      if InsertIndentBefore(kind, alwaysIndentParens, Context()) {
        if !onNewLine {
          WriteNewline();
        }
        MaybeIndent();
      }
    }

    /** Leaving a rule: pop one entry for the indent kinds, whatever was pushed. */
    method ExitEveryRule(kind: RuleKind)
      requires Valid()
      requires IndentsHere(kind) ==> indentationStack != []
      modifies this`indentationStack
      ensures Valid()
      ensures indentationStack ==
                if old(IndentsHere(kind)) then old(indentationStack)[..|old(indentationStack)| - 1]
                else old(indentationStack)
    {
      if InsertIndentBefore(kind, alwaysIndentParens, Context()) {
        MaybeDedent();
      }
    }

    method EnterAnnotation()
      modifies this`inAnnotation
      ensures Context() == old(Context()).(inAnnotation := old(inAnnotation) + 1)
    {
      inAnnotation := inAnnotation + 1;
    }

    method ExitAnnotation()
      modifies this`inAnnotation
      ensures Context() == old(Context()).(inAnnotation := old(inAnnotation) - 1)
    {
      inAnnotation := inAnnotation - 1;
    }

    method EnterVector()
      modifies this`inVector
      ensures Context() == old(Context()).(inVector := old(inVector) + 1)
    {
      inVector := inVector + 1;
    }

    method ExitVector()
      modifies this`inVector
      ensures Context() == old(Context()).(inVector := old(inVector) - 1)
    {
      inVector := inVector - 1;
    }

    method EnterNamedArgument()
      modifies this`inNamedArgument
      ensures Context() == old(Context()).(inNamedArgument := old(inNamedArgument) + 1)
    {
      inNamedArgument := inNamedArgument + 1;
    }

    method ExitNamedArgument()
      modifies this`inNamedArgument
      ensures Context() == old(Context()).(inNamedArgument := old(inNamedArgument) - 1)
    {
      inNamedArgument := inNamedArgument - 1;
    }

    /** The rule-specific enter hook the walk calls after `EnterEveryRule`. */
    method EnterRuleHook(kind: RuleKind)
      modifies this`inAnnotation, this`inVector, this`inNamedArgument
      ensures Context() == EnterHook(old(Context()), kind)
    {
      match kind
      case Annotation => EnterAnnotation();
      case Vector => EnterVector();
      case NamedArgument => EnterNamedArgument();
      case _ =>
    }

    /** The rule-specific exit hook the walk calls before `ExitEveryRule`. */
    method ExitRuleHook(kind: RuleKind)
      modifies this`inAnnotation, this`inVector, this`inNamedArgument
      ensures Context() == ExitHook(old(Context()), kind)
    {
      match kind
      case Annotation => ExitAnnotation();
      case Vector => ExitVector();
      case NamedArgument => ExitNamedArgument();
      case _ =>
    }

    /**
     The depth-first walk over a tree, in the order the tree walker calls
     the listener. A subtree leaves the indentation stack and the counters
     as it found them, so every exit pops exactly the entry its enter pushed;
     the output only grows and the comment queue only loses its front.
     */
    method Walk(t: ParseTree)
      requires Valid()
      modifies this
      ensures Valid()
      ensures indentationStack == old(indentationStack) && Context() == old(Context())
      ensures old(out) <= out
      ensures |commentTokens| <= |old(commentTokens)|
      ensures commentTokens == old(commentTokens)[|old(commentTokens)| - |commentTokens|..]
      ensures Context() == Replay(old(Context()), Events(t))
      decreases t
    {
      ReplayBalanced(Context(), t);
      match t
      case Leaf(tok) =>
        VisitTerminal(tok);
      case Rule(k, ch) =>
        ghost var outer := Context();
        EnterEveryRule(k);
        ghost var pushed := indentationStack;
        EnterRuleHook(k);
        ghost var inner := Context();
        for i := 0 to |ch|
          invariant Valid()
          invariant indentationStack == pushed && Context() == inner
          invariant old(out) <= out
          invariant |commentTokens| <= |old(commentTokens)|
          invariant commentTokens == old(commentTokens)[|old(commentTokens)| - |commentTokens|..]
        {
          Walk(ch[i]);
        }
        ExitRuleHook(k);
        assert Context() == outer;
        ExitEveryRule(k);
    }
  }

  /**
   What each of the three terminal visits of the run `a / /*c*/ b` appends,
   in the shape `VisitTerminal` states it: no comment is drained before `a`
   or `/`; the comment is drained before `b` and, like `b`, is not spaced
   after the division operator.
   */
  lemma DivisionRunPieces(c: Token)
    requires c == Token(CommentTokenType, "/*c*/", 2)
    ensures DrainCount([c], -1, 0) == 0 && DrainCount([c], 0, 1) == 0 && DrainCount([c], 1, 3) == 1
    ensures "" + EmitComments(true, 0, "", [c][..0])
               + SpaceBefore(OnNewLineAfter(true, [c][..0]), 0, Token(1, "a", 0), "")
               + "a" + (if "a" == ";" then "\n" else "") == "a"
    ensures "a" + EmitComments(false, 0, "a", [c][..0])
                + SpaceBefore(OnNewLineAfter(false, [c][..0]), 0, Token(1, "/", 1), "a")
                + "/" + (if "/" == ";" then "\n" else "") == "a/"
    ensures "a/" + EmitComments(false, 0, "/", [c][..1])
                 + SpaceBefore(OnNewLineAfter(false, [c][..1]), 0, Token(1, "b", 3), "/")
                 + "b" + (if "b" == ";" then "\n" else "") == "a//*c*/b"
  {
    assert "/" in NoSpaceAfterTokens;
    assert [c][..0] == [] && [c][..1] == [c];
    assert EmitComments(false, 0, "/", [c]) == "/*c*/";
  }

  /**
   The run `a / /*c*/ b` as the listener writes it: the block comment is
   spaced by the token tables, gets no space after the division operator,
   and its opening slash joins the operator into a line-comment opener.
   */
  method DivisionCommentRun() returns (written: string)
    ensures written == "a//*c*/b"
    ensures OpensComment(written, 1)
  {
    var c := Token(CommentTokenType, "/*c*/", 2);
    DivisionRunPieces(c);
    var l := new ModelicaListener([c], false);
    l.VisitTerminal(Token(1, "a", 0));
    l.VisitTerminal(Token(1, "/", 1));
    l.VisitTerminal(Token(1, "b", 3));
    written := l.out;
  }
}
