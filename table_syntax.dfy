/**
 * The phrases the two table-driven parsers read, as trees, and the token
 * lists they are written as. An expression is a sum of products of factors;
 * each chain is kept as a right-nested list, first element first, so that
 * its rendering is the tokens in source order.
 */
module TableSyntax {
  import opened TableLexer

  datatype Factor = Atom(token: Token) | Group(open: Token, inner: Sum, close: Token)
  datatype Product = Single(factor: Factor) | Times(factor: Factor, op: Token, rest: Product)
  datatype Sum = Lone(product: Product) | Add(product: Product, op: Token, rest: Sum)

  predicate FactorOk(f: Factor) {
    match f
    case Atom(t) => t.kind == Identifier || t.kind == Number
    case Group(l, e, r) => l.kind == LParen && SumOk(e) && r.kind == RParen
  }

  predicate ProductOk(t: Product) {
    match t
    case Single(f) => FactorOk(f)
    case Times(f, op, rest) => FactorOk(f) && (op.kind == Star || op.kind == Slash) && ProductOk(rest)
  }

  predicate SumOk(e: Sum) {
    match e
    case Lone(t) => ProductOk(t)
    case Add(t, op, rest) => ProductOk(t) && (op.kind == Plus || op.kind == Minus) && SumOk(rest)
  }

  /** The tokens a factor is written as: the token itself, or the sum in parentheses. */
  function FactorTokens(f: Factor): (r: seq<Token>)
    ensures |r| >= 1
  {
    match f
    case Atom(t) => [t]
    case Group(l, e, r) => [l] + SumTokens(e) + [r]
  }

  function ProductTokens(t: Product): (r: seq<Token>)
    ensures |r| >= 1
  {
    match t
    case Single(f) => FactorTokens(f)
    case Times(f, op, rest) => FactorTokens(f) + [op] + ProductTokens(rest)
  }

  function SumTokens(e: Sum): (r: seq<Token>)
    ensures |r| >= 1
  {
    match e
    case Lone(t) => ProductTokens(t)
    case Add(t, op, rest) => ProductTokens(t) + [op] + SumTokens(rest)
  }

  /** `w` is written in `toks` from position `p` on. */
  predicate Reads(toks: seq<Token>, p: nat, w: seq<Token>)
    ensures Reads(toks, p, w) ==> p + |w| <= |toks|
    decreases |w|
  {
    if w == [] then p <= |toks| else p < |toks| && toks[p] == w[0] && Reads(toks, p + 1, w[1..])
  }

  lemma {:induction false} ReadsSplit(toks: seq<Token>, p: nat, a: seq<Token>, b: seq<Token>)
    requires Reads(toks, p, a + b)
    ensures Reads(toks, p, a) && Reads(toks, p + |a|, b)
    decreases |a|
  {
    if a == [] {
      assert a + b == b;
    } else {
      assert (a + b)[0] == a[0] && (a + b)[1..] == a[1..] + b;
      ReadsSplit(toks, p + 1, a[1..], b);
    }
  }

  /** A reading of `a`, a token `x` and `b`, taken apart. */
  lemma ReadsAround(toks: seq<Token>, p: nat, a: seq<Token>, x: Token, b: seq<Token>)
    requires Reads(toks, p, a + [x] + b)
    ensures Reads(toks, p, a) && p + |a| < |toks| && toks[p + |a|] == x && Reads(toks, p + |a| + 1, b)
  {
    assert a + [x] + b == a + ([x] + b);
    ReadsSplit(toks, p, a, [x] + b);
    assert ([x] + b)[1..] == b;
  }

  /** The converse of ReadsAround: `a`, then `x`, then `b`, read as one. */
  lemma {:induction false} ReadsJoin(toks: seq<Token>, p: nat, a: seq<Token>, x: Token, b: seq<Token>)
    requires Reads(toks, p, a) && p + |a| < |toks| && toks[p + |a|] == x && Reads(toks, p + |a| + 1, b)
    ensures Reads(toks, p, a + [x] + b)
    decreases |a|
  {
    if a == [] {
      assert a + [x] + b == [x] + b && ([x] + b)[1..] == b;
    } else {
      ReadsJoin(toks, p + 1, a[1..], x, b);
      assert (a + [x] + b)[0] == a[0] && (a + [x] + b)[1..] == a[1..] + [x] + b;
    }
  }

  /** Reading `w` at `p` is finding it in the slice that starts there. */
  lemma {:induction false} ReadsSlice(toks: seq<Token>, p: nat, q: nat, w: seq<Token>)
    requires p <= q <= |toks|
    ensures toks[p..q] == w <==> q == p + |w| && Reads(toks, p, w)
    decreases |w|
  {
    if w != [] && p < q {
      ReadsSlice(toks, p + 1, q, w[1..]);
      assert toks[p..q] == [toks[p]] + toks[p + 1..q];
      if toks[p..q] == w {
        assert w[1..] == toks[p + 1..q];
      }
    }
  }

  /** No operator that would continue a chain: what an expression stops at. */
  predicate NoMulOp(toks: seq<Token>, q: nat) {
    !At(toks, q, Star) && !At(toks, q, Slash)
  }

  predicate NoAddOp(toks: seq<Token>, q: nat) {
    !At(toks, q, Plus) && !At(toks, q, Minus)
  }

  /** A non-empty list of items, comma separated. */
  function CommaList(items: seq<Token>): (r: seq<Token>)
    requires |items| >= 1
    ensures |r| == 2 * |items| - 1
  {
    if |items| == 1 then [items[0]] else [items[0], Token(Comma, ",")] + CommaList(items[1..])
  }

  predicate AllIdentifiers(items: seq<Token>) {
    forall i :: 0 <= i < |items| ==> items[i].kind == Identifier
  }
}
