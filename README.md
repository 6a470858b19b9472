# modelica-fmt formatting engine

This is a model of the engine at the heart of modelica-fmt, a formatter for
Modelica source. After parsing, ANTLR's default tree walker visits the
parse tree and calls three callbacks on a listener: rule enter, rule exit
and terminal visit. The listener writes the tokens back out. It puts at most
one space between two tokens on a line, and breaks lines before certain
rules. It indents block-like rules, with at most
one indentation step per physical line. It re-inserts the comments the lexer
set aside, each in front of the first token that follows it.

The project has six modules:

- `Tokens` (`tokens.dfy`): a token is its lexer type, its text and its index
  in the token stream. Types 93 and 94 are block and line comments. The file
  also holds predicates for the lexer-order assumption on the comment queue.
- `Spacing` (`spacing.dfy`): the two token tables, the group-membership scan
  and the space-before-token policy, with its `(`-after-`annotation`
  override. It also holds a corrected spacing for comments, which the
  listener does not use (see Findings).
- `Layout` (`layout.dfy`): the rule kinds the formatter tells apart, plus
  `Other`. It holds the newline and indent decisions and the annotation,
  named-argument and vector depth counters, which have rule-specific enter
  and exit hooks. It also has the tree walk as an event sequence. The proof
  that the indent decision is the same at a rule's enter and exit lives here.
- `IndentStack` (`indent_stack.dfy`): render and ignore entries, the
  rendered depth of a stack, and the two-space indentation unit.
- `Emission` (`emission.dfy`): what a write appends, as functions of the
  cursor state. This covers the leading whitespace, the text of one comment
  and of a run of comments, and how many queued comments are drained before
  a token.
- `Listener` (`listener.dfy`): the class `ModelicaListener`. Its fields are
  the output, the indentation stack, the line-start and already-indented
  flags, the previous token's text and index, the comment queue and the
  three counters. Its methods update these in place, as the Go methods do.
  - The output writer is an append-only string field.
  - The ghost field `lineBase` records the rendered depth when the current
    line began. The invariant `Valid()` uses it to state the indent cap: a
    line is at most one step deeper than where it began.
  - `Walk` runs the callbacks in the tree walker's order. That order is an
    assumption of the model: `EnterEveryRule`, then the rule-specific enter
    hook, then the children, then the rule-specific exit hook, then
    `ExitEveryRule`.

## Model

| member | source | states |
|---|---|---|
| Spacing.InsertSpaceBeforeToken | modelicafmt.go:54-65 | the spacing switch: `(` after `annotation` is spaced, and every other pair, `(` included, is spaced iff the previous text is not in the no-space-after table and the current one is not in the no-space-before table |
| Spacing.TokenInGroup | modelicafmt.go:109-117 | the scan finds the token exactly when it equals some element of the group |
| Spacing.OpenParenSpacedOnlyAfterAnnotation | modelicafmt.go:55-63 | an opening parenthesis is spaced exactly when the previous text is `annotation` |
| Spacing.EqualsBindsTightly | modelicafmt.go:85-106 | `=` is in both tables, so it is never spaced from either neighbour |
| Spacing.ClosersNeverSpaced | modelicafmt.go:97-106 | `)`, `]`, `}`, `;` and `,` are never preceded by a space |
| Spacing.NothingSpacedAfterOpener | modelicafmt.go:85-93 | nothing is spaced after `(`, `[` or `{` |
| Spacing.AssignmentUnspaced | modelicafmt.go:82-107 | `a`, `=`, `1`, `;` are written with no space between them |
| Spacing.CommentAfterDivisionGlued | modelicafmt.go:217-229 | under the table rule, a comment right after `/` gets no space, and the joined text opens a new comment at the `/` |
| Spacing.CommentNeverGlued | modelicafmt.go:209-215 | with the corrected comment spacing `InsertSpaceBeforeComment`, which always spaces a comment after a text ending in `/`, no comment opener forms where the previous text and the comment meet |
| Layout.InsertNewlineBefore | modelicafmt.go:67-80 | the newline switch: Composition, Equations and the if, elseif and else expression conditions start a new line; every other kind does not |
| Layout.InsertIndentBefore | modelicafmt.go:27-51 | the indent switch: the ten block-like kinds always indent; argument and named-argument rules only with the switch on and outside annotations; function arguments only with the switch on and all three counters zero |
| Layout.NewlineAndIndentOnlyEquations | modelicafmt.go:27-80 | Equations is the only kind that both breaks the line and indents; the other four line-breaking kinds never indent, for every switch value and counter state |
| Layout.FunctionArgumentIndentsLeast | modelicafmt.go:42-47 | wherever a function argument indents, argument and named-argument rules indent too |
| Layout.DefaultIndentsOnlyBlocks | modelicafmt.go:27-51 | with always-indent-parentheses off, a kind indents iff it is block-like |
| Layout.AnnotationSuppressesArguments | modelicafmt.go:42-47 | inside an annotation, only the block-like kinds indent; argument, named-argument and function-argument rules do not |
| Layout.EnteringNeverEnablesIndent | modelicafmt.go:271-293 | with non-negative counters, entering any rule never turns on an indent decision that was off |
| Layout.EnterHook | modelicafmt.go:271-293 | the exit hook of a kind undoes its enter hook |
| Layout.ExitHook | modelicafmt.go:275-293 | the exit hooks of Annotation, Vector and NamedArgument decrement their counter; other kinds leave the counters alone |
| Layout.EnterUndoesExit | modelicafmt.go:271-293 | the enter hook of a kind undoes its exit hook, so the two hooks are mutually inverse |
| Layout.ReplayBalanced | modelicafmt.go:271-293 | the events of a whole subtree leave the counters as they were |
| Layout.ReplayBalancedAll | modelicafmt.go:271-293 | the events of a run of sibling subtrees leave the counters as they were |
| Layout.IndentDecisionSymmetric | modelicafmt.go:252-269 | the indent decision when a rule is entered, before its hook, equals the one when it is left, after its hook; so the exit pops exactly what the enter pushed |
| IndentStack.RenderedIsMultiplicity | modelicafmt.go:166-176 | the rendered depth is the number of render entries in the stack |
| IndentStack.RenderedBounded | modelicafmt.go:166-176 | the rendered depth never exceeds the stack height |
| IndentStack.RenderedPop | modelicafmt.go:196-199 | a pop never increases the rendered depth |
| IndentStack.RepeatIndentShape | modelicafmt.go:217-223 | the indentation for depth n is exactly 2n spaces |
| Emission.SpaceBeforeShape | modelicafmt.go:217-229 | at a line start the leading whitespace is 2 × depth spaces and never a separating space; mid-line it is one space iff the space-before-token rule holds for the token's text and the previous text, for comments as for ordinary tokens |
| Emission.LineIndentAfterNoLineComment | modelicafmt.go:201-215 | the already-indented flag survives a run of comments iff none of them is a line comment |
| Emission.EmitCommentsLength | modelicafmt.go:231-238 | the text written for drained comments is at least as long as their texts together |
| Emission.EmitCommentsPrefix | modelicafmt.go:234-238 | the text written for the first j drained comments is a prefix of the text written for all of them: later comments never change what earlier ones wrote |
| Emission.EmitCommentsWritesEach | modelicafmt.go:209-238 | each drained comment is written: the text up to and including it ends with its text (and a newline for a line comment) and is a prefix of the whole, so the comments appear in queue order |
| Emission.EmitCommentsEndsWithLast | modelicafmt.go:209-215 | the written text ends with the last comment, followed by a newline when it is a line comment |
| Emission.DrainCount | modelicafmt.go:234-238 | the number of drained comments is the length of the longest front run whose indices lie strictly between the previous and the current token |
| Emission.DrainCountOfPrefix | modelicafmt.go:234-238 | a drainable prefix followed by the queue's end or a non-drainable comment is exactly the drained prefix |
| Emission.DrainedIffBefore | modelicafmt.go:234-238 | for a queue in lexer order that lies after the previous token, a comment is drained iff it precedes the token; the rest stays in order and lies after the token |
| Listener.ModelicaListener.constructor | modelicafmt.go:144-157 | a fresh listener has empty output and stack, is at a line start, is not indented, has previous index -1, zero counters and the given queue |
| Listener.ModelicaListener.Indentation | modelicafmt.go:166-176 | the counting loop returns the rendered depth of the stack |
| Listener.ModelicaListener.MaybeIndent | modelicafmt.go:178-194 | appends exactly one entry, a render entry iff the line was not yet indented; sets the flag and keeps the indent cap |
| Listener.ModelicaListener.MaybeDedent | modelicafmt.go:196-199 | on a non-empty stack, removes exactly the last entry and leaves the rest unchanged |
| Listener.ModelicaListener.WriteNewline | modelicafmt.go:201-207 | appends a newline, sets the line-start flag, clears the already-indented flag and starts a new line base |
| Listener.ModelicaListener.WriteSpaceBefore | modelicafmt.go:217-229 | appends the leading whitespace of the token for the current cursor, clears the line-start flag, and at a line start the depth is within one step of the line base |
| Listener.ModelicaListener.WriteComment | modelicafmt.go:209-215 | appends the comment's whitespace and text, plus a newline for a line comment; afterwards the cursor is at a line start iff it was a line comment |
| Listener.ModelicaListener.PopComment | modelicafmt.go:235-237 | one turn of the drain loop: pops the front comment, writes it, and extends the drained run by exactly that comment |
| Listener.ModelicaListener.FlushComments | modelicafmt.go:231-238 | pops exactly the drained prefix from the queue, leaving the old queue's suffix; the appended text, cursor and flag are those of writing that prefix in order |
| Listener.ModelicaListener.VisitTerminal | modelicafmt.go:231-250 | the output grows by the drained comments, the token's whitespace, its text and a newline after `;`; the queue loses the drained prefix; previous text and index become the token's |
| Listener.ModelicaListener.EnterEveryRule | modelicafmt.go:252-263 | at most one line break, only off a line start and only for the newline or indent kinds; one stack entry for the indent kinds, rendered when the line was just broken or not yet indented |
| Listener.ModelicaListener.ExitEveryRule | modelicafmt.go:265-269 | for the indent kinds, removes exactly the last stack entry; otherwise nothing changes |
| Listener.ModelicaListener.EnterAnnotation | modelicafmt.go:271-273 | increments the annotation counter only |
| Listener.ModelicaListener.ExitAnnotation | modelicafmt.go:275-277 | decrements the annotation counter only |
| Listener.ModelicaListener.EnterVector | modelicafmt.go:279-281 | increments the vector counter only |
| Listener.ModelicaListener.ExitVector | modelicafmt.go:283-285 | decrements the vector counter only |
| Listener.ModelicaListener.EnterNamedArgument | modelicafmt.go:287-289 | increments the named-argument counter only |
| Listener.ModelicaListener.ExitNamedArgument | modelicafmt.go:291-293 | decrements the named-argument counter only |
| Listener.ModelicaListener.EnterRuleHook | modelicafmt.go:271-293 | the rule-specific enter hooks move the counters as the enter hook function says |
| Listener.ModelicaListener.ExitRuleHook | modelicafmt.go:271-293 | the rule-specific exit hooks move the counters as the exit hook function says |
| Listener.ModelicaListener.Walk | modelicafmt.go:252-269 | walking any subtree keeps the indent cap and restores the indentation stack; the counters end as the replay of the subtree's events says, which is where they started; the output only grows; the queue only loses front entries |
| Listener.DivisionRunPieces | modelicafmt.go:217-250 | for the run `a`, `/`, block comment, `b`, the three visits append `a`, `/` and the comment glued to `b`: no comment drains before `a` or `/`, the comment drains before `b`, and neither it nor `b` is spaced after `/` |
| Listener.DivisionCommentRun | modelicafmt.go:209-250 | a fresh listener fed `a / /*c*/ b` writes exactly `a//*c*/b`, and a comment opener starts at the division operator |

## Left out

- `processFile` reads a file, runs the lexer, parser and tree walker, and
  checks the lexer's symbolic names for the two comment token types. That is
  I/O and foreign library code. The tree walker's callback order is fixed in
  `Listener.ModelicaListener.Walk` and `Layout.Events`.
- `close` flushes the buffered writer and panics on an I/O error. The output
  is an append-only string, so there is nothing to flush.
- `commentCollector` and its `NextToken` wrap the lexer's token source. In the
  model the comment queue is a parameter of the constructor. The lexer's
  ordering is stated as the predicates `StrictlyIncreasing` and `AllAfter`,
  which `Emission.DrainedIffBefore` assumes.
- The Modelica grammar and the parser's rule classes. A parse tree is a rule
  kind with children, or a token. Rules the formatter does not distinguish
  are `Other`. `Vector` is a kind of its own because its hooks move a counter.
- Whole-program properties such as idempotence, or that the output parses to
  the same tree. These depend on the lexer and parser.
- `alwaysIndentParens` is a mutable package variable in Go. It is never
  changed during a run, so here it is a constant field fixed at construction.
- Go's `int` is 64 bits wide. The counters and token indices are unbounded
  integers here, so an overflow after 2^63 nested rules or tokens is not
  modelled.
- Go strings are byte strings. Token texts are `seq<char>`; no encoding is
  modelled.
- The corrected comment spacing `Spacing.InsertSpaceBeforeComment` is proved
  correct on its own. The listener keeps the program's behaviour and spaces
  comments by the token tables, so the model writes the glued text of the
  Findings row, as the program does.
- Listener.ModelicaListener.Walk: states structural facts about a whole
  subtree, not the exact text it produces. The text is stated callback by
  callback, by `VisitTerminal` and `EnterEveryRule`.

## Findings

| source | as written | input that shows it | evidently intended | confidence | as-written member | corrected member |
|---|---|---|---|---|---|---|
| modelicafmt.go:209-229 | a comment is spaced by the same tables as an ordinary token, and `/` is in the no-space-after table, so a comment right after the division operator is glued to it | `a / /*c*/ b` is written `a//*c*/b`; the `//` now starts a line comment that swallows the operator, the comment and `b` | a comment is never joined to a preceding `/`, so the written text keeps its tokens | high, not executed | Listener.DivisionCommentRun | Spacing.CommentNeverGlued |
