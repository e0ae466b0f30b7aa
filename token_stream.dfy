/**
 * Reading a token sequence: the tests the recursive-descent parsers of the
 * hand-written front ends (Main.java, script.py, script.java) make on the
 * token under the cursor.
 */
module TokenStream {
  import opened HandLexer

  const EndToken: Token := Token(Keyword, "END")

  predicate Is(toks: seq<Token>, p: nat, c: Category, v: string) {
    p < |toks| && toks[p] == Token(c, v)
  }

  predicate IsCat(toks: seq<Token>, p: nat, c: Category) {
    p < |toks| && toks[p].category == c
  }

  predicate IsEnd(toks: seq<Token>, p: nat) {
    Is(toks, p, Keyword, "END")
  }

  predicate IsArithSpelling(v: string) {
    v == "+" || v == "-" || v == "*" || v == "/"
  }

  predicate IsRelOpSpelling(v: string) {
    v == "=" || v == ">" || v == ">=" || v == "<" || v == "<="
  }

  /** The operators that continue an expression. */
  predicate IsArith(toks: seq<Token>, p: nat) {
    p < |toks| && toks[p].category == Operator && IsArithSpelling(toks[p].value)
  }

  predicate IsRelOp(toks: seq<Token>, p: nat) {
    p < |toks| && toks[p].category == Operator && IsRelOpSpelling(toks[p].value)
  }
}
