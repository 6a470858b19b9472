/**
 Indentation stack entries and the leading whitespace they produce. Every
 indent-triggering rule pushes one entry; only rendered entries add to the
 visible depth.
 */
module IndentStack {

  datatype Indent = RenderIndent | IgnoreIndent

  /** One indentation unit: two spaces. */
  const SpaceIndent: string := "  "

  /** The number of rendered entries in a stack. */
  function Rendered(stack: seq<Indent>): nat
  {
    if stack == [] then 0
    else Rendered(stack[..|stack| - 1]) + (if stack[|stack| - 1] == RenderIndent then 1 else 0)
  }

  /** The rendered depth is the multiplicity of `RenderIndent` in the stack. */
  lemma {:induction false} RenderedIsMultiplicity(stack: seq<Indent>)
    ensures Rendered(stack) == multiset(stack)[RenderIndent]
  {
    if stack != [] {
      var init := stack[..|stack| - 1];
      assert stack == init + [stack[|stack| - 1]];
      RenderedIsMultiplicity(init);
    }
  }

  /** The rendered depth never exceeds the number of entries. */
  lemma {:induction false} RenderedBounded(stack: seq<Indent>)
    ensures Rendered(stack) <= |stack|
  {
    if stack != [] {
      RenderedBounded(stack[..|stack| - 1]);
    }
  }

  /** Pushing an entry adds one exactly when it is rendered. */
  lemma RenderedPush(stack: seq<Indent>, e: Indent)
    ensures Rendered(stack + [e]) == Rendered(stack) + (if e == RenderIndent then 1 else 0)
  {
    assert (stack + [e])[..|stack|] == stack;
  }

  /** Popping the last entry never increases the rendered depth. */
  lemma RenderedPop(stack: seq<Indent>)
    requires stack != []
    ensures Rendered(stack[..|stack| - 1]) <= Rendered(stack)
  {
  }

  /** `s` repeated `n` times. */
  function Repeat(s: string, n: nat): string
  {
    if n == 0 then "" else Repeat(s, n - 1) + s
  }

  /** The leading whitespace for depth `n`: exactly `2 * n` spaces. */
  lemma {:induction false} RepeatIndentShape(n: nat)
    ensures |Repeat(SpaceIndent, n)| == 2 * n
    ensures forall i :: 0 <= i < |Repeat(SpaceIndent, n)| ==> Repeat(SpaceIndent, n)[i] == ' '
  {
    if n > 0 {
      RepeatIndentShape(n - 1);
    }
  }
}
