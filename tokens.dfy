/**
 Tokens as the formatting engine sees them: a lexer token type, the literal
 text and the absolute index in the token stream. Ordinary tokens and the
 comment tokens of the side channel share one index space.
 */
module Tokens {

  /** Lexer token type of a block comment. */
  const CommentTokenType: int := 93
  /** Lexer token type of a line comment. */
  const LineCommentTokenType: int := 94

  datatype Token = Token(tokenType: int, text: string, index: int)

  /** A comment is routed to the side channel by its token type. */
  predicate IsComment(t: Token) {
    t.tokenType == CommentTokenType || t.tokenType == LineCommentTokenType
  }

  /** Only a line comment forces a line break after itself. */
  predicate IsLineComment(t: Token) {
    t.tokenType == LineCommentTokenType
  }

  /** The lexer hands out comments in strictly increasing index order. */
  ghost predicate StrictlyIncreasing(q: seq<Token>) {
    forall i, j :: 0 <= i < j < |q| ==> q[i].index < q[j].index
  }

  /** Every queued token lies strictly after index `idx`. */
  ghost predicate AllAfter(q: seq<Token>, idx: int) {
    forall i :: 0 <= i < |q| ==> q[i].index > idx
  }

  /** No queued token carries index `idx`. */
  ghost predicate IndexFree(q: seq<Token>, idx: int) {
    forall i :: 0 <= i < |q| ==> q[i].index != idx
  }
}
