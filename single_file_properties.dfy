/**
 * What SingleFileParser.java accepts, proved about the functions of
 * SingleFileGrammar: exactly the written forms of expression trees, the
 * comma lists of READ, the commands that consume nothing, and programs that
 * end with END.
 */
module SingleFileProperties {
  import opened TableLexer
  import opened TableSyntax
  import G = SingleFileGrammar

  // ----- Every well-formed expression tree is read back whole -----

  // One step of each expression rule, taken by itself.

  lemma GroupStep(toks: seq<Token>, p: nat, q: nat)
    requires At(toks, p, LParen) && G.Expression(toks, p + 1) == Ok(q) && At(toks, q, RParen)
    ensures G.Factor(toks, p) == Ok(q + 1)
  {
  }

  lemma TermStep(toks: seq<Token>, p: nat, q: nat)
    requires p <= |toks| && G.Factor(toks, p) == Ok(q) && (At(toks, q, Star) || At(toks, q, Slash))
    ensures G.Term(toks, p) == G.Term(toks, q + 1)
  {
    assert G.TermTail(toks, q) == G.Term(toks, q + 1);
  }

  lemma TermStop(toks: seq<Token>, p: nat, q: nat)
    requires p <= |toks| && G.Factor(toks, p) == Ok(q) && NoMulOp(toks, q)
    ensures G.Term(toks, p) == Ok(q)
  {
  }

  lemma ExpressionStep(toks: seq<Token>, p: nat, q: nat)
    requires p <= |toks| && G.Term(toks, p) == Ok(q) && (At(toks, q, Plus) || At(toks, q, Minus))
    ensures G.Expression(toks, p) == G.Expression(toks, q + 1)
  {
    assert G.ExpressionTail(toks, q) == G.Expression(toks, q + 1);
  }

  lemma ExpressionStop(toks: seq<Token>, p: nat, q: nat)
    requires p <= |toks| && G.Term(toks, p) == Ok(q) && NoAddOp(toks, q)
    ensures G.Expression(toks, p) == Ok(q)
  {
  }

  lemma {:induction false} FactorReadsTree(f: Factor, toks: seq<Token>, p: nat)
    requires FactorOk(f) && Reads(toks, p, FactorTokens(f))
    ensures G.Factor(toks, p) == Ok(p + |FactorTokens(f)|)
    decreases f, 1
  {
    match f
    case Atom(t) =>
      assert toks[p] == FactorTokens(f)[0];
    case Group(l, e, r) =>
      var w := SumTokens(e);
      assert FactorTokens(f) == [] + [l] + (w + [r]) && w + [r] == w + [r] + [];
      ReadsAround(toks, p, [], l, w + [r]);
      ReadsAround(toks, p + 1, w, r, []);
      SumReadsTree(e, toks, p + 1);
      GroupStep(toks, p, p + 1 + |w|);
  }

  lemma {:induction false} ProductReadsTree(t: Product, toks: seq<Token>, p: nat)
    requires ProductOk(t) && Reads(toks, p, ProductTokens(t))
    requires NoMulOp(toks, p + |ProductTokens(t)|)
    ensures G.Term(toks, p) == Ok(p + |ProductTokens(t)|)
    decreases t, 1
  {
    match t
    case Single(f) =>
      FactorReadsTree(f, toks, p);
      TermStop(toks, p, p + |FactorTokens(f)|);
    case Times(f, op, rest) =>
      ProductTimesReads(f, op, rest, toks, p);
  }

  lemma {:induction false} ProductTimesReads(f: Factor, op: Token, rest: Product, toks: seq<Token>, p: nat)
    requires FactorOk(f) && (op.kind == Star || op.kind == Slash) && ProductOk(rest)
    requires Reads(toks, p, FactorTokens(f) + [op] + ProductTokens(rest))
    requires NoMulOp(toks, p + |FactorTokens(f)| + 1 + |ProductTokens(rest)|)
    ensures G.Term(toks, p) == Ok(p + |FactorTokens(f)| + 1 + |ProductTokens(rest)|)
    decreases Times(f, op, rest), 0
  {
    var w := FactorTokens(f);
    ReadsAround(toks, p, w, op, ProductTokens(rest));
    FactorReadsTree(f, toks, p);
    ProductReadsTree(rest, toks, p + |w| + 1);
    TermStep(toks, p, p + |w|);
  }

  /** Completeness: the tokens of a well-formed sum, followed by anything
      that cannot continue it, are parsed as one expression ending there. */
  lemma {:induction false} SumReadsTree(e: Sum, toks: seq<Token>, p: nat)
    requires SumOk(e) && Reads(toks, p, SumTokens(e))
    requires NoMulOp(toks, p + |SumTokens(e)|) && NoAddOp(toks, p + |SumTokens(e)|)
    ensures G.Expression(toks, p) == Ok(p + |SumTokens(e)|)
    decreases e, 1
  {
    match e
    case Lone(t) =>
      ProductReadsTree(t, toks, p);
      ExpressionStop(toks, p, p + |ProductTokens(t)|);
    case Add(t, op, rest) =>
      SumAddReads(t, op, rest, toks, p);
  }

  lemma {:induction false} SumAddReads(t: Product, op: Token, rest: Sum, toks: seq<Token>, p: nat)
    requires ProductOk(t) && (op.kind == Plus || op.kind == Minus) && SumOk(rest)
    requires Reads(toks, p, ProductTokens(t) + [op] + SumTokens(rest))
    requires NoMulOp(toks, p + |ProductTokens(t)| + 1 + |SumTokens(rest)|)
    requires NoAddOp(toks, p + |ProductTokens(t)| + 1 + |SumTokens(rest)|)
    ensures G.Expression(toks, p) == Ok(p + |ProductTokens(t)| + 1 + |SumTokens(rest)|)
    decreases Add(t, op, rest), 0
  {
    var w := ProductTokens(t);
    ReadsAround(toks, p, w, op, SumTokens(rest));
    ProductReadsTree(t, toks, p);
    SumReadsTree(rest, toks, p + |w| + 1);
    ExpressionStep(toks, p, p + |w|);
  }

  // ----- Where a parsed expression stops -----

  lemma {:induction false} TermStops(toks: seq<Token>, p: nat)
    requires p <= |toks| && G.Term(toks, p).Ok?
    ensures NoMulOp(toks, G.Term(toks, p).pos)
    decreases |toks| - p
  {
    var q := G.Factor(toks, p).pos;
    if At(toks, q, Star) || At(toks, q, Slash) {
      assert G.TermTail(toks, q) == G.Term(toks, q + 1);
      TermStops(toks, q + 1);
    }
  }

  /** A parsed expression ends where no `+ - * /` follows. */
  lemma {:induction false} ExpressionStops(toks: seq<Token>, p: nat)
    requires p <= |toks| && G.Expression(toks, p).Ok?
    ensures NoMulOp(toks, G.Expression(toks, p).pos) && NoAddOp(toks, G.Expression(toks, p).pos)
    decreases |toks| - p
  {
    var q := G.Term(toks, p).pos;
    TermStops(toks, p);
    if At(toks, q, Plus) || At(toks, q, Minus) {
      assert G.ExpressionTail(toks, q) == G.Expression(toks, q + 1);
      ExpressionStops(toks, q + 1);
    }
  }

  // ----- Every parsed expression is the written form of a tree -----

  /** What an accepted factor that is not an operand consists of. */
  lemma GroupParts(toks: seq<Token>, p: nat)
    requires p <= |toks| && G.Factor(toks, p).Ok? && !At(toks, p, Identifier) && !At(toks, p, Number)
    ensures At(toks, p, LParen) && G.Expression(toks, p + 1).Ok?
    ensures At(toks, G.Expression(toks, p + 1).pos, RParen)
    ensures G.Factor(toks, p).pos == G.Expression(toks, p + 1).pos + 1
  {
  }

  lemma {:induction false} FactorTreeOf(toks: seq<Token>, p: nat) returns (f: Factor)
    requires p <= |toks| && G.Factor(toks, p).Ok?
    ensures FactorOk(f) && Reads(toks, p, FactorTokens(f)) && G.Factor(toks, p).pos == p + |FactorTokens(f)|
    decreases |toks| - p, 1
  {
    if At(toks, p, Identifier) || At(toks, p, Number) {
      f := Atom(toks[p]);
      assert [toks[p]][1..] == [] && Reads(toks, p + 1, []);
    } else {
      GroupParts(toks, p);
      var q := G.Expression(toks, p + 1).pos;
      var e := SumTreeOf(toks, p + 1);
      f := Group(toks[p], e, toks[q]);
      ReadsJoin(toks, p + 1, SumTokens(e), toks[q], []);
      assert SumTokens(e) + [toks[q]] + [] == SumTokens(e) + [toks[q]];
      ReadsJoin(toks, p, [], toks[p], SumTokens(e) + [toks[q]]);
      assert [] + [toks[p]] + (SumTokens(e) + [toks[q]]) == FactorTokens(f);
    }
  }

  lemma {:induction false} ProductTreeOf(toks: seq<Token>, p: nat) returns (t: Product)
    requires p <= |toks| && G.Term(toks, p).Ok?
    ensures ProductOk(t) && Reads(toks, p, ProductTokens(t)) && G.Term(toks, p).pos == p + |ProductTokens(t)|
    decreases |toks| - p, 3
  {
    var f := FactorTreeOf(toks, p);
    var q := G.Factor(toks, p).pos;
    if At(toks, q, Star) || At(toks, q, Slash) {
      TermStep(toks, p, q);
      var rest := ProductTreeOf(toks, q + 1);
      t := Times(f, toks[q], rest);
      ReadsJoin(toks, p, FactorTokens(f), toks[q], ProductTokens(rest));
      assert |ProductTokens(t)| == |FactorTokens(f)| + 1 + |ProductTokens(rest)|;
    } else {
      TermStop(toks, p, q);
      t := Single(f);
    }
  }

  /** Soundness: what Expression accepts is the written form of a well-formed sum. */
  lemma {:induction false} SumTreeOf(toks: seq<Token>, p: nat) returns (e: Sum)
    requires p <= |toks| && G.Expression(toks, p).Ok?
    ensures SumOk(e) && Reads(toks, p, SumTokens(e)) && G.Expression(toks, p).pos == p + |SumTokens(e)|
    decreases |toks| - p, 5
  {
    var t := ProductTreeOf(toks, p);
    var q := G.Term(toks, p).pos;
    if At(toks, q, Plus) || At(toks, q, Minus) {
      ExpressionStep(toks, p, q);
      var rest := SumTreeOf(toks, q + 1);
      e := Add(t, toks[q], rest);
      ReadsJoin(toks, p, ProductTokens(t), toks[q], SumTokens(rest));
      assert |SumTokens(e)| == |ProductTokens(t)| + 1 + |SumTokens(rest)|;
    } else {
      ExpressionStop(toks, p, q);
      e := Lone(t);
    }
  }

  /** parseExpressao accepts from `p` to `q` exactly when the tokens between are
      a well-formed sum and no operator follows them. */
  lemma ExpressionIsWrittenSum(toks: seq<Token>, p: nat, q: nat)
    requires p <= q <= |toks|
    ensures G.Expression(toks, p) == Ok(q) <==>
      (exists e :: SumOk(e) && toks[p..q] == SumTokens(e)) && NoMulOp(toks, q) && NoAddOp(toks, q)
  {
    if G.Expression(toks, p) == Ok(q) {
      var e := SumTreeOf(toks, p);
      ReadsSlice(toks, p, q, SumTokens(e));
      ExpressionStops(toks, p);
    }
    if (exists e :: SumOk(e) && toks[p..q] == SumTokens(e)) && NoMulOp(toks, q) && NoAddOp(toks, q) {
      var e :| SumOk(e) && toks[p..q] == SumTokens(e);
      ReadsSlice(toks, p, q, SumTokens(e));
      SumReadsTree(e, toks, p);
    }
  }

  // ----- READ lists -----

  /** The loop of parseListaDeIdentificadores walks over a whole comma list of identifiers. */
  lemma {:induction false} IdentifierTailSkipsList(ids: seq<Token>, toks: seq<Token>, p: nat)
    requires |ids| >= 1 && AllIdentifiers(ids) && Reads(toks, p, CommaList(ids))
    ensures G.IdentifierTail(toks, p + 1) == G.IdentifierTail(toks, p + |CommaList(ids)|)
    decreases |ids|
  {
    if |ids| > 1 {
      var rest := CommaList(ids[1..]);
      ReadsSplit(toks, p, [ids[0], Token(Comma, ",")], rest);
      assert toks[p + 1] == Token(Comma, ",");
      assert toks[p + 2] == rest[0] == ids[1];
      IdentifierTailSkipsList(ids[1..], toks, p + 2);
    }
  }

  /** READ's list: a comma list of identifiers not followed by a comma is read whole. */
  lemma IdentifierListReads(ids: seq<Token>, toks: seq<Token>, p: nat)
    requires |ids| >= 1 && AllIdentifiers(ids) && Reads(toks, p, CommaList(ids))
    requires !At(toks, p + |CommaList(ids)|, Comma)
    ensures G.IdentifierList(toks, p) == Ok(p + |CommaList(ids)|)
  {
    assert toks[p] == CommaList(ids)[0] == ids[0];
    IdentifierTailSkipsList(ids, toks, p);
  }

  /** A comma after the list with no identifier after it is the error at that token. */
  lemma TrailingCommaRejected(ids: seq<Token>, toks: seq<Token>, p: nat)
    requires |ids| >= 1 && AllIdentifiers(ids) && Reads(toks, p, CommaList(ids))
    requires At(toks, p + |CommaList(ids)|, Comma) && !At(toks, p + |CommaList(ids)| + 1, Identifier)
    ensures G.IdentifierList(toks, p) == Thrown(G.ExpectedIdentifierAfterComma, p + |CommaList(ids)| + 1)
  {
    assert toks[p] == CommaList(ids)[0] == ids[0];
    IdentifierTailSkipsList(ids, toks, p);
  }

  // ----- Commands and programs -----

  /** parseComando consumes nothing exactly when the current token starts no
      command: END, ELSE, THEN, `;`, the end of the tokens and any stray token. */
  lemma CommandEmptyIff(toks: seq<Token>, p: nat)
    requires p <= |toks|
    ensures G.Command(toks, p) == Ok(p) <==> !G.StartsCommand(toks, p)
  {
    if G.StartsCommand(toks, p) && At(toks, p, Identifier) && At(toks, p + 1, Colon) {
      assert G.Command(toks, p) == G.Command(toks, p + 2);
    }
  }

  /** An accepted program is read to its last token, which is END. */
  lemma AcceptedProgramEndsWithEnd(toks: seq<Token>)
    requires G.Program(toks).Ok?
    ensures G.Program(toks).pos == |toks| >= 1 && toks[|toks| - 1].kind == G.EndKw
  {
  }
}
