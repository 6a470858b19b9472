/**
 Layout policy: which rule kinds force a line break and which force an
 indented block, and the three context counters that gate the
 parenthesised-argument exceptions. Also the order in which the tree walk
 delivers its events, which makes the indent decision symmetric.
 */
module Layout {
  import opened Tokens

  /**
   The rule kinds the formatter distinguishes; every other rule of the
   grammar is `Other`. `Vector` only drives a context counter.
   */
  datatype RuleKind =
    | Composition
    | Equations
    | IfExpressionCondition
    | ElseifExpressionCondition
    | ElseExpressionCondition
    | Element
    | AlgorithmStatements
    | ControlStructureBody
    | StringComment
    | Annotation
    | ExpressionList
    | ConstrainingClause
    | IfExpression
    | IfExpressionBody
    | Argument
    | NamedArgument
    | FunctionArgument
    | Vector
    | Other

  /** Depth of enclosing annotation, named-argument and vector rules. */
  datatype Counters = Counters(inAnnotation: int, inNamedArgument: int, inVector: int)

  const Outside: Counters := Counters(0, 0, 0)

  /** Kinds that start a new line. */
  function InsertNewlineBefore(kind: RuleKind): bool {
    match kind
    case Composition | Equations | IfExpressionCondition
       | ElseifExpressionCondition | ElseExpressionCondition => true
    case _ => false
  }

  /** Block-like kinds that always indent. */
  predicate IsBlockKind(kind: RuleKind) {
    kind in {Element, Equations, AlgorithmStatements, ControlStructureBody, StringComment,
             Annotation, ExpressionList, ConstrainingClause, IfExpression, IfExpressionBody}
  }

  /**
   Kinds that go on a new, indented line. The argument-like kinds only do so
   with the always-indent-parentheses switch on and outside the contexts
   that are already indented.
   */
  function InsertIndentBefore(kind: RuleKind, alwaysIndentParens: bool, c: Counters): bool {
    match kind
    case Element | Equations | AlgorithmStatements | ControlStructureBody | StringComment
       | Annotation | ExpressionList | ConstrainingClause | IfExpression | IfExpressionBody => true
    case Argument | NamedArgument => alwaysIndentParens && 0 == c.inAnnotation
    case FunctionArgument =>
      alwaysIndentParens && 0 == c.inNamedArgument && 0 == c.inVector && 0 == c.inAnnotation
    case _ => false
  }

  /** With the switch off (the default) exactly the block-like kinds indent. */
  lemma DefaultIndentsOnlyBlocks(kind: RuleKind, c: Counters)
    ensures InsertIndentBefore(kind, false, c) <==> IsBlockKind(kind)
  {
  }

  /** Inside an annotation no argument-like rule adds indentation. */
  lemma AnnotationSuppressesArguments(kind: RuleKind, alwaysIndentParens: bool, c: Counters)
    requires c.inAnnotation != 0
    ensures InsertIndentBefore(kind, alwaysIndentParens, c) <==> IsBlockKind(kind)
  {
  }

  /**
   Equations is the only kind that both breaks the line and opens an indented
   block; the other four line-breaking kinds never indent.
   */
  lemma NewlineAndIndentOnlyEquations(kind: RuleKind, alwaysIndentParens: bool, c: Counters)
    ensures InsertNewlineBefore(kind) && InsertIndentBefore(kind, alwaysIndentParens, c) <==> kind == Equations
  {
  }

  /** A function argument indents only where argument and named-argument rules indent too. */
  lemma FunctionArgumentIndentsLeast(alwaysIndentParens: bool, c: Counters)
    ensures InsertIndentBefore(FunctionArgument, alwaysIndentParens, c) ==>
              InsertIndentBefore(Argument, alwaysIndentParens, c) &&
              InsertIndentBefore(NamedArgument, alwaysIndentParens, c)
  {
  }

  /**
   With non-negative counters, entering any rule never turns an indent
   decision on: the hooks only add context that suppresses indentation.
   */
  lemma EnteringNeverEnablesIndent(entered: RuleKind, kind: RuleKind, alwaysIndentParens: bool, c: Counters)
    requires c.inAnnotation >= 0 && c.inNamedArgument >= 0 && c.inVector >= 0
    ensures InsertIndentBefore(kind, alwaysIndentParens, EnterHook(c, entered)) ==>
              InsertIndentBefore(kind, alwaysIndentParens, c)
  {
  }

  /** The rule-specific enter hook: annotation, vector and named argument count their depth. */
  function EnterHook(c: Counters, kind: RuleKind): (r: Counters)
    ensures ExitHook(r, kind) == c
  {
    match kind
    case Annotation => c.(inAnnotation := c.inAnnotation + 1)
    case Vector => c.(inVector := c.inVector + 1)
    case NamedArgument => c.(inNamedArgument := c.inNamedArgument + 1)
    case _ => c
  }

  /** The rule-specific exit hook, undoing `EnterHook`. */
  function ExitHook(c: Counters, kind: RuleKind): Counters {
    match kind
    case Annotation => c.(inAnnotation := c.inAnnotation - 1)
    case Vector => c.(inVector := c.inVector - 1)
    case NamedArgument => c.(inNamedArgument := c.inNamedArgument - 1)
    case _ => c
  }

  /** Entering a kind right after leaving it restores the counters too: the hooks are mutually inverse. */
  lemma EnterUndoesExit(c: Counters, kind: RuleKind)
    ensures EnterHook(ExitHook(c, kind), kind) == c
  {
  }

  /** A parse tree reduced to what the formatter sees: rule kinds and terminal tokens. */
  datatype ParseTree = Rule(kind: RuleKind, children: seq<ParseTree>) | Leaf(token: Token)

  /**
   One callback of the tree walk. `EnterRule` stands for the generic
   enter-every-rule callback followed by the rule-specific enter hook;
   `ExitRule` for the rule-specific exit hook followed by the generic
   exit-every-rule callback.
   */
  datatype Event = EnterRule(kind: RuleKind) | ExitRule(kind: RuleKind) | Terminal(token: Token)

  /** The depth-first, left-to-right event sequence of a tree. */
  function Events(t: ParseTree): seq<Event>
    decreases t, 1
  {
    match t
    case Leaf(tok) => [Terminal(tok)]
    case Rule(k, ch) => [EnterRule(k)] + EventsOf(ch) + [ExitRule(k)]
  }

  function EventsOf(ts: seq<ParseTree>): seq<Event>
    decreases ts, 0
  {
    if ts == [] then [] else Events(ts[0]) + EventsOf(ts[1..])
  }

  /** The counters after one event. */
  function Step(c: Counters, e: Event): Counters {
    match e
    case EnterRule(k) => EnterHook(c, k)
    case ExitRule(k) => ExitHook(c, k)
    case Terminal(_) => c
  }

  /** The counters after a sequence of events. */
  function Replay(c: Counters, es: seq<Event>): Counters
    decreases |es|
  {
    if es == [] then c else Replay(Step(c, es[0]), es[1..])
  }

  lemma {:induction false} ReplayAppend(c: Counters, a: seq<Event>, b: seq<Event>)
    ensures Replay(c, a + b) == Replay(Replay(c, a), b)
    decreases |a|
  {
    if a != [] {
      assert (a + b)[0] == a[0] && (a + b)[1..] == a[1..] + b;
      ReplayAppend(Step(c, a[0]), a[1..], b);
    } else {
      assert a + b == b;
    }
  }

  /** Walking a whole subtree leaves the counters as they were. */
  lemma {:induction false} ReplayBalanced(c: Counters, t: ParseTree)
    ensures Replay(c, Events(t)) == c
    decreases t, 1
  {
    match t
    case Leaf(tok) =>
    case Rule(k, ch) =>
      var inner := EventsOf(ch);
      ReplayAppend(c, [EnterRule(k)] + inner, [ExitRule(k)]);
      ReplayAppend(c, [EnterRule(k)], inner);
      ReplayBalancedAll(EnterHook(c, k), ch);
  }

  lemma {:induction false} ReplayBalancedAll(c: Counters, ts: seq<ParseTree>)
    ensures Replay(c, EventsOf(ts)) == c
    decreases ts, 0
  {
    if ts != [] {
      ReplayAppend(c, Events(ts[0]), EventsOf(ts[1..]));
      ReplayBalanced(c, ts[0]);
      ReplayBalancedAll(c, ts[1..]);
    }
  }

  /**
   With the walk order above, the indent decision taken when a rule is
   entered (before its own hook runs) equals the one taken when it is left
   (after its own hook has run), because its children leave the counters
   balanced. This is what makes the unconditional pop on exit safe.
   */
  lemma {:induction false} IndentDecisionSymmetric(k: RuleKind, ch: seq<ParseTree>, alwaysIndentParens: bool, c: Counters)
    ensures InsertIndentBefore(k, alwaysIndentParens, c) ==
              InsertIndentBefore(k, alwaysIndentParens, ExitHook(Replay(EnterHook(c, k), EventsOf(ch)), k))
  {
    ReplayBalancedAll(EnterHook(c, k), ch);
  }
}
