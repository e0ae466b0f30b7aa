/**
 * The programs the two table-driven parsers read, as trees, and where such a
 * tree stands in a token list. Both parsers test token types only, so a
 * keyword, `:=`, `,`, `:` and `;` are placed by type; identifiers, the
 * comparison operator and the expressions are kept as the tokens written.
 * Which trees each parser accepts is stated in SingleFilePrograms and
 * TempRunnerPrograms.
 */
module TablePrograms {
  import opened TableLexer
  import opened TableSyntax
  import S = SingleFileGrammar
  import T = TempRunnerGrammar
  import SP = SingleFileProperties
  import TV = TableVersions

  datatype Cmd =
    | Empty
    | Labelled(labelName: Token, body: Cmd)
    | Let(name: Token, value: Sum)
    | Jump(target: Token)
    | ComputedJump(target: Token, labels: seq<Token>)
    | Read(names: seq<Token>)
    | Print(values: seq<Sum>)
    | If(left: Sum, rel: Token, right: Sum, thenCmd: Cmd, elseCmd: Cmd)

  /** Commands separated by `;`, then END. */
  datatype Program = Program(cmds: seq<Cmd>)

  /** The token t itself stands at p. */
  predicate TokAt(toks: seq<Token>, p: nat, t: Token) {
    p < |toks| && toks[p] == t
  }

  /** `, n1 , n2 ...` stands at p. */
  predicate MoreNamesAt(toks: seq<Token>, p: nat, ns: seq<Token>)
    decreases ns
  {
    ns == [] || (At(toks, p, Comma) && TokAt(toks, p + 1, ns[0]) && MoreNamesAt(toks, p + 2, ns[1..]))
  }

  /** `n1 , n2 , ... , nk` stands at p; nothing for the empty list. */
  predicate NamesAt(toks: seq<Token>, p: nat, ns: seq<Token>) {
    ns == [] || (TokAt(toks, p, ns[0]) && MoreNamesAt(toks, p + 1, ns[1..]))
  }

  function NamesWidth(ns: seq<Token>): nat {
    if ns == [] then 0 else 2 * |ns| - 1
  }

  /** `, e1 , e2 ...` stands at p. */
  predicate MoreExprsAt(toks: seq<Token>, p: nat, es: seq<Sum>)
    decreases es
  {
    es == [] ||
    (At(toks, p, Comma) && Reads(toks, p + 1, SumTokens(es[0]))
     && MoreExprsAt(toks, p + 1 + |SumTokens(es[0])|, es[1..]))
  }

  /** Every sum of the list is well formed. */
  predicate SumsOk(es: seq<Sum>)
    decreases es
  {
    es == [] || (SumOk(es[0]) && SumsOk(es[1..]))
  }

  function MoreExprsWidth(es: seq<Sum>): nat
    decreases es
  {
    if es == [] then 0 else 1 + |SumTokens(es[0])| + MoreExprsWidth(es[1..])
  }

  /** `e1 , e2 , ... , ek` stands at p; nothing for the empty list. */
  predicate ExprsAt(toks: seq<Token>, p: nat, es: seq<Sum>) {
    es == [] || (Reads(toks, p, SumTokens(es[0])) && MoreExprsAt(toks, p + |SumTokens(es[0])|, es[1..]))
  }

  function ExprsWidth(es: seq<Sum>): nat {
    if es == [] then 0 else |SumTokens(es[0])| + MoreExprsWidth(es[1..])
  }

  /** The number of tokens a command takes. */
  function Width(c: Cmd): nat {
    match c
    case Empty => 0
    case Labelled(_, b) => 2 + Width(b)
    case Let(_, e) => 3 + |SumTokens(e)|
    case Jump(_) => 3
    case ComputedJump(_, ls) => 4 + NamesWidth(ls)
    case Read(ns) => 1 + NamesWidth(ns)
    case Print(es) => 1 + ExprsWidth(es)
    case If(a, _, b, c1, c2) => 4 + |SumTokens(a)| + |SumTokens(b)| + Width(c1) + Width(c2)
  }

  /** The command c is written in toks from p on: nothing, `label :` before
      its body, `LET x := e`, `GO TO l`, `GO TO l OF l1 , ...`,
      `READ x1 , ...`, `PRINT e1 , ...` or `IF e1 rel e2 THEN c1 ELSE c2`. */
  predicate CmdAt(toks: seq<Token>, p: nat, c: Cmd)
    decreases c
  {
    match c
    case Empty => p <= |toks|
    case Labelled(l, b) => TokAt(toks, p, l) && At(toks, p + 1, Colon) && CmdAt(toks, p + 2, b)
    case Let(x, e) =>
      At(toks, p, S.LetKw) && TokAt(toks, p + 1, x) && At(toks, p + 2, Assign) && Reads(toks, p + 3, SumTokens(e))
    case Jump(l) => At(toks, p, S.GoKw) && At(toks, p + 1, S.ToKw) && TokAt(toks, p + 2, l)
    case ComputedJump(l, ls) =>
      At(toks, p, S.GoKw) && At(toks, p + 1, S.ToKw) && TokAt(toks, p + 2, l)
      && At(toks, p + 3, T.OfKw) && NamesAt(toks, p + 4, ls)
    case Read(ns) => At(toks, p, S.ReadKw) && NamesAt(toks, p + 1, ns)
    case Print(es) => At(toks, p, S.PrintKw) && ExprsAt(toks, p + 1, es)
    case If(a, rel, b, c1, c2) =>
      At(toks, p, S.IfKw) && Reads(toks, p + 1, SumTokens(a))
      && TokAt(toks, RelPos(p, c), rel) && Reads(toks, RelPos(p, c) + 1, SumTokens(b))
      && At(toks, ThenPos(p, c), S.ThenKw) && CmdAt(toks, ThenPos(p, c) + 1, c1)
      && At(toks, ElsePos(p, c), S.ElseKw) && CmdAt(toks, ElsePos(p, c) + 1, c2)
  }

  /** Where the comparison operator, THEN and ELSE of an IF at p stand. */
  function RelPos(p: nat, c: Cmd): nat
    requires c.If?
  {
    p + 1 + |SumTokens(c.left)|
  }

  function ThenPos(p: nat, c: Cmd): nat
    requires c.If?
  {
    RelPos(p, c) + 1 + |SumTokens(c.right)|
  }

  function ElsePos(p: nat, c: Cmd): nat
    requires c.If?
  {
    ThenPos(p, c) + 1 + Width(c.thenCmd)
  }

  /** The commands, separated by `;`, from p on. */
  predicate SeqAt(toks: seq<Token>, p: nat, cmds: seq<Cmd>)
    decreases cmds
  {
    |cmds| >= 1 && CmdAt(toks, p, cmds[0])
    && (|cmds| == 1 || (At(toks, p + Width(cmds[0]), Semi) && SeqAt(toks, p + Width(cmds[0]) + 1, cmds[1..])))
  }

  function SeqWidth(cmds: seq<Cmd>): nat
    decreases cmds
  {
    if cmds == [] then 0
    else if |cmds| == 1 then Width(cmds[0])
    else Width(cmds[0]) + 1 + SeqWidth(cmds[1..])
  }

  /** The token list is exactly the program p followed by END. */
  predicate Written(toks: seq<Token>, p: Program) {
    SeqAt(toks, 0, p.cmds) && |toks| == SeqWidth(p.cmds) + 1 && At(toks, |toks| - 1, S.EndKw)
  }

  /** What follows a command inside a program: `;`, END or ELSE. */
  predicate Follow(toks: seq<Token>, q: nat) {
    At(toks, q, Semi) || At(toks, q, S.EndKw) || At(toks, q, S.ElseKw)
  }

  /** The comparison operators both parsers take. */
  predicate IsRel(t: Token) {
    t.kind == Eq || t.kind == Gt || t.kind == Lt
  }

  /** What ends an expression in a command: a comparison, THEN, `,` or a
      follower; none of them continues a sum. */
  predicate Stop(toks: seq<Token>, q: nat) {
    NoMulOp(toks, q) && NoAddOp(toks, q)
  }

  // ---------------------------------------------------------------------
  // Expressions, read by both parsers
  // ---------------------------------------------------------------------

  /** A well-formed sum is read in full by both parsers' expression rules. */
  lemma {:induction false} SumReads(toks: seq<Token>, p: nat, e: Sum)
    requires SumOk(e) && Reads(toks, p, SumTokens(e)) && Stop(toks, p + |SumTokens(e)|)
    ensures S.Expression(toks, p) == Ok(p + |SumTokens(e)|)
    ensures T.Expression(toks, p) == Ok(p + |SumTokens(e)|)
  {
    SP.SumReadsTree(e, toks, p);
    TV.ExpressionsAgree(toks, p);
  }

  /** What either expression rule accepts is a well-formed sum, the same for both. */
  lemma {:induction false} SumOf(toks: seq<Token>, p: nat) returns (e: Sum)
    requires p <= |toks| && (S.Expression(toks, p).Ok? || T.Expression(toks, p).Ok?)
    ensures SumOk(e) && Reads(toks, p, SumTokens(e))
    ensures S.Expression(toks, p) == Ok(p + |SumTokens(e)|)
    ensures T.Expression(toks, p) == Ok(p + |SumTokens(e)|)
  {
    TV.ExpressionsAgree(toks, p);
    e := SP.SumTreeOf(toks, p);
  }

  /** A sum starts with an identifier, a number or `(`. */
  lemma {:induction false} SumStarts(toks: seq<Token>, p: nat, e: Sum)
    requires SumOk(e) && Reads(toks, p, SumTokens(e))
    ensures S.ExprStart(toks, p) && T.ExprStart(toks, p)
  {
    var t := e.product;
    assert SumTokens(e)[0] == ProductTokens(t)[0] && ProductOk(t);
    var f := t.factor;
    assert ProductTokens(t)[0] == FactorTokens(f)[0] && FactorOk(f);
    assert toks[p] == FactorTokens(f)[0];
  }

  // ---------------------------------------------------------------------
  // Lists
  // ---------------------------------------------------------------------

  /** `, n1 , ... , nk` of identifiers, not followed by `,`, is read in full
      by the identifier loops and the label loop. */
  lemma {:induction false} MoreNamesRead(toks: seq<Token>, p: nat, ns: seq<Token>)
    requires p <= |toks| && MoreNamesAt(toks, p, ns) && AllIdentifiers(ns) && !At(toks, p + 2 * |ns|, Comma)
    ensures S.IdentifierTail(toks, p) == Ok(p + 2 * |ns|)
    ensures T.IdentifierLoop(toks, p) == Ok(p + 2 * |ns|)
    ensures T.LabelLoop(toks, p) == Ok(p + 2 * |ns|)
    decreases ns
  {
    if ns != [] {
      assert ns[0] == ns[0 + 0];
      assert AllIdentifiers(ns[1..]) by {
        forall i | 0 <= i < |ns[1..]| ensures ns[1..][i].kind == Identifier {
          assert ns[1..][i] == ns[i + 1];
        }
      }
      MoreNamesRead(toks, p + 2, ns[1..]);
    }
  }

  /** What the S identifier loop accepts is `, n1 , ... , nk`. */
  lemma {:induction false} SNamesOf(toks: seq<Token>, p: nat) returns (ns: seq<Token>)
    requires p <= |toks| && S.IdentifierTail(toks, p).Ok?
    ensures MoreNamesAt(toks, p, ns) && AllIdentifiers(ns) && S.IdentifierTail(toks, p).pos == p + 2 * |ns|
    decreases |toks| - p
  {
    if At(toks, p, Comma) {
      var rest := SNamesOf(toks, p + 2);
      ns := [toks[p + 1]] + rest;
      assert ns[1..] == rest;
    } else {
      ns := [];
    }
  }

  /** What the T identifier loop accepts is `, n1 , ... , nk`. */
  lemma {:induction false} TNamesOf(toks: seq<Token>, p: nat) returns (ns: seq<Token>)
    requires p <= |toks| && T.IdentifierLoop(toks, p).Ok?
    ensures MoreNamesAt(toks, p, ns) && AllIdentifiers(ns) && T.IdentifierLoop(toks, p).pos == p + 2 * |ns|
    decreases |toks| - p
  {
    if At(toks, p, Comma) {
      var rest := TNamesOf(toks, p + 2);
      ns := [toks[p + 1]] + rest;
      assert ns[1..] == rest;
    } else {
      ns := [];
    }
  }

  /** What the T label loop accepts is `, l1 , ... , lk`. */
  lemma {:induction false} TLabelsOf(toks: seq<Token>, p: nat) returns (ns: seq<Token>)
    requires p <= |toks| && T.LabelLoop(toks, p).Ok?
    ensures MoreNamesAt(toks, p, ns) && AllIdentifiers(ns) && T.LabelLoop(toks, p).pos == p + 2 * |ns|
    decreases |toks| - p
  {
    if At(toks, p, Comma) {
      var rest := TLabelsOf(toks, p + 2);
      ns := [toks[p + 1]] + rest;
      assert ns[1..] == rest;
    } else {
      ns := [];
    }
  }

  /** A name in front of `, n2 , ...` makes the whole list. */
  lemma {:induction false} NamesCons(toks: seq<Token>, p: nat, more: seq<Token>) returns (ns: seq<Token>)
    requires At(toks, p, Identifier) && MoreNamesAt(toks, p + 1, more) && AllIdentifiers(more)
    ensures ns == [toks[p]] + more && NamesAt(toks, p, ns) && AllIdentifiers(ns)
    ensures NamesWidth(ns) == 1 + 2 * |more|
  {
    ns := [toks[p]] + more;
    assert ns[1..] == more;
    assert forall i :: 1 <= i < |ns| ==> ns[i] == more[i - 1];
  }

  /** `, e1 , ... , ek` of well-formed sums, followed by what stops a sum
      and no `,`, is read in full by both expression-list loops. */
  lemma {:induction false} MoreExprsRead(toks: seq<Token>, p: nat, es: seq<Sum>)
    requires p <= |toks| && MoreExprsAt(toks, p, es) && SumsOk(es)
    requires Stop(toks, p + MoreExprsWidth(es)) && !At(toks, p + MoreExprsWidth(es), Comma)
    ensures S.ExpressionListTail(toks, p) == Ok(p + MoreExprsWidth(es))
    ensures T.ExpressionListLoop(toks, p) == Ok(p + MoreExprsWidth(es))
    decreases es
  {
    if es != [] {
      var e := es[0];
      var q := p + 1 + |SumTokens(e)|;
      SumStarts(toks, p + 1, e);
      MoreExprsRead(toks, q, es[1..]);
      MoreExprsStop(toks, q, es[1..]);
      SumReads(toks, p + 1, e);
    }
  }

  /** After a sum of the list comes `,` or what follows the list. */
  lemma {:induction false} MoreExprsStop(toks: seq<Token>, q: nat, es: seq<Sum>)
    requires MoreExprsAt(toks, q, es) && Stop(toks, q + MoreExprsWidth(es))
    ensures Stop(toks, q)
  {
  }

  /** What both expression-list loops accept is `, e1 , ... , ek`. */
  lemma {:induction false} MoreExprsOf(toks: seq<Token>, p: nat) returns (es: seq<Sum>)
    requires p <= |toks| && (S.ExpressionListTail(toks, p).Ok? || T.ExpressionListLoop(toks, p).Ok?)
    ensures MoreExprsAt(toks, p, es) && SumsOk(es)
    ensures S.ExpressionListTail(toks, p) == Ok(p + MoreExprsWidth(es))
    ensures T.ExpressionListLoop(toks, p) == Ok(p + MoreExprsWidth(es))
    decreases |toks| - p
  {
    if At(toks, p, Comma) {
      var e := SumOf(toks, p + 1);
      var rest := MoreExprsOf(toks, p + 1 + |SumTokens(e)|);
      es := [e] + rest;
      assert es[1..] == rest;
    } else {
      es := [];
    }
  }

  /** The expression lists of both parsers read `e1 , ... , ek` in full,
      the empty list included. */
  lemma {:induction false} ExprsRead(toks: seq<Token>, p: nat, es: seq<Sum>, r: nat)
    requires p <= |toks| && ExprsAt(toks, p, es) && SumsOk(es) && r == p + ExprsWidth(es) && Follow(toks, r)
    ensures S.ExpressionList(toks, p) == Ok(r) && T.ExpressionList(toks, p) == Ok(r)
  {
    FollowStops(toks, r);
    if es != [] {
      ExprsSplit(toks, p, es);
      ExprsReadCons(toks, p, es[0], es[1..], r);
    }
  }

  /** A non-empty list taken apart: its first sum and the rest. */
  lemma {:induction false} ExprsSplit(toks: seq<Token>, p: nat, es: seq<Sum>)
    requires es != [] && ExprsAt(toks, p, es) && SumsOk(es)
    ensures SumOk(es[0]) && Reads(toks, p, SumTokens(es[0])) && SumsOk(es[1..])
    ensures MoreExprsAt(toks, p + |SumTokens(es[0])|, es[1..])
    ensures ExprsWidth(es) == |SumTokens(es[0])| + MoreExprsWidth(es[1..])
  {
  }

  lemma {:induction false} ExprsReadCons(toks: seq<Token>, p: nat, e: Sum, rest: seq<Sum>, r: nat)
    requires p <= |toks| && SumOk(e) && Reads(toks, p, SumTokens(e))
    requires MoreExprsAt(toks, p + |SumTokens(e)|, rest) && SumsOk(rest)
    requires r == p + |SumTokens(e)| + MoreExprsWidth(rest) && Stop(toks, r) && !At(toks, r, Comma)
    ensures S.ExpressionList(toks, p) == Ok(r) && T.ExpressionList(toks, p) == Ok(r)
  {
    var q := p + |SumTokens(e)|;
    SumStarts(toks, p, e);
    MoreExprsRead(toks, q, rest);
    MoreExprsStop(toks, q, rest);
    SumReads(toks, p, e);
    ExprListStep(toks, p, q, r);
  }

  /** Both expression lists, from the results of their parts. */
  lemma {:induction false} ExprListStep(toks: seq<Token>, p: nat, q: nat, r: nat)
    requires p < q <= |toks| && S.ExprStart(toks, p)
    requires S.Expression(toks, p) == Ok(q) && T.Expression(toks, p) == Ok(q)
    requires S.ExpressionListTail(toks, q) == Ok(r) && T.ExpressionListLoop(toks, q) == Ok(r)
    ensures S.ExpressionList(toks, p) == Ok(r) && T.ExpressionList(toks, p) == Ok(r)
  {
  }

  /** What follows a command stops a sum and is not `,`. */
  lemma {:induction false} FollowStops(toks: seq<Token>, r: nat)
    requires Follow(toks, r)
    ensures Stop(toks, r) && !At(toks, r, Comma) && !S.ExprStart(toks, r) && !T.ExprStart(toks, r)
    ensures !At(toks, r, Identifier)
  {
  }

  /** What both expression lists accept is `e1 , ... , ek`. */
  lemma {:induction false} ExprsOf(toks: seq<Token>, p: nat) returns (es: seq<Sum>)
    requires p <= |toks| && (S.ExpressionList(toks, p).Ok? || T.ExpressionList(toks, p).Ok?)
    ensures ExprsAt(toks, p, es) && SumsOk(es)
    ensures S.ExpressionList(toks, p) == Ok(p + ExprsWidth(es))
    ensures T.ExpressionList(toks, p) == Ok(p + ExprsWidth(es))
  {
    if S.ExprStart(toks, p) {
      var e := SumOf(toks, p);
      var rest := MoreExprsOf(toks, p + |SumTokens(e)|);
      es := [e] + rest;
      assert es[1..] == rest;
    } else {
      es := [];
    }
  }

  /** Both comparisons, from the results of their parts. */
  lemma {:induction false} ComparisonStep(toks: seq<Token>, p: nat, p2: nat, p4: nat)
    requires p < p2 < |toks| && IsRel(toks[p2]) && p2 < p4 <= |toks|
    requires S.Expression(toks, p) == Ok(p2) && T.Expression(toks, p) == Ok(p2)
    requires S.Expression(toks, p2 + 1) == Ok(p4) && T.Expression(toks, p2 + 1) == Ok(p4)
    ensures S.Comparison(toks, p) == Ok(p4) && T.Comparison(toks, p) == Ok(p4)
  {
  }

  /** Both comparisons read `e1 rel e2` in full when THEN follows. */
  lemma {:induction false} ComparisonReads(toks: seq<Token>, p: nat, a: Sum, p2: nat, b: Sum, p4: nat)
    requires SumOk(a) && Reads(toks, p, SumTokens(a)) && p2 == p + |SumTokens(a)| && p2 < |toks| && IsRel(toks[p2])
    requires SumOk(b) && Reads(toks, p2 + 1, SumTokens(b)) && p4 == p2 + 1 + |SumTokens(b)| && At(toks, p4, S.ThenKw)
    ensures S.Comparison(toks, p) == Ok(p4) && T.Comparison(toks, p) == Ok(p4)
  {
    SumReads(toks, p, a);
    SumReads(toks, p2 + 1, b);
    ComparisonStep(toks, p, p2, p4);
  }

  /** What both comparisons accept is `e1 rel e2`. */
  lemma {:induction false} ComparisonOf(toks: seq<Token>, p: nat) returns (a: Sum, p2: nat, b: Sum)
    requires p <= |toks| && (S.Comparison(toks, p).Ok? || T.Comparison(toks, p).Ok?)
    ensures SumOk(a) && Reads(toks, p, SumTokens(a)) && p2 == p + |SumTokens(a)| && p2 < |toks| && IsRel(toks[p2])
    ensures SumOk(b) && Reads(toks, p2 + 1, SumTokens(b))
    ensures S.Comparison(toks, p) == Ok(p2 + 1 + |SumTokens(b)|) && T.Comparison(toks, p) == Ok(p2 + 1 + |SumTokens(b)|)
  {
    TV.ExpressionsAgree(toks, p);
    a := SumOf(toks, p);
    p2 := p + |SumTokens(a)|;
    b := SumOf(toks, p2 + 1);
    ComparisonStep(toks, p, p2, p2 + 1 + |SumTokens(b)|);
  }

  /** Where the parts of an IF command stand. */
  lemma {:induction false} IfParts(toks: seq<Token>, p: nat, c: Cmd)
    requires c.If? && CmdAt(toks, p, c)
    ensures ElsePos(p, c) + 1 + Width(c.elseCmd) == p + Width(c)
    ensures At(toks, p, S.IfKw) && Reads(toks, p + 1, SumTokens(c.left)) && TokAt(toks, RelPos(p, c), c.rel)
    ensures Reads(toks, RelPos(p, c) + 1, SumTokens(c.right)) && At(toks, ThenPos(p, c), S.ThenKw)
    ensures CmdAt(toks, ThenPos(p, c) + 1, c.thenCmd)
    ensures At(toks, ElsePos(p, c), S.ElseKw) && CmdAt(toks, ElsePos(p, c) + 1, c.elseCmd)
  {
  }

  /** Where the parts of a sequence of two commands or more stand. */
  lemma {:induction false} SeqParts(toks: seq<Token>, p: nat, cmds: seq<Cmd>)
    requires |cmds| >= 2 && SeqAt(toks, p, cmds)
    ensures CmdAt(toks, p, cmds[0]) && At(toks, p + Width(cmds[0]), Semi)
    ensures SeqAt(toks, p + Width(cmds[0]) + 1, cmds[1..])
    ensures SeqWidth(cmds) == Width(cmds[0]) + 1 + SeqWidth(cmds[1..])
  {
  }

  /** A command followed by `;` and a sequence makes a longer sequence. */
  lemma {:induction false} SeqCons(toks: seq<Token>, p: nat, c: Cmd, q: nat, rest: seq<Cmd>) returns (cmds: seq<Cmd>)
    requires CmdAt(toks, p, c) && q == p + Width(c) && At(toks, q, Semi) && SeqAt(toks, q + 1, rest)
    ensures cmds == [c] + rest && SeqAt(toks, p, cmds) && SeqWidth(cmds) == Width(c) + 1 + SeqWidth(rest)
  {
    cmds := [c] + rest;
    assert cmds[1..] == rest;
  }

  /** A command that takes tokens starts with a command keyword or a label,
      never with `;`, END or ELSE. */
  lemma {:induction false} NonEmptyStart(toks: seq<Token>, p: nat, c: Cmd)
    requires CmdAt(toks, p, c) && c != Empty && (c.Labelled? ==> c.labelName.kind == Identifier)
    ensures !Follow(toks, p)
  {
    var w := StartWord(toks, p, c);
    StartNotFollow(toks, p, w);
  }

  /** The word a command starts with: its label, or the keyword LET, GO,
      READ, PRINT or IF. */
  lemma {:induction false} StartWord(toks: seq<Token>, p: nat, c: Cmd) returns (w: string)
    requires CmdAt(toks, p, c) && c != Empty && (c.Labelled? ==> c.labelName.kind == Identifier)
    ensures p < |toks| && (toks[p].kind == Identifier || (toks[p].kind == Keyword(w) && w in {"LET", "GO", "READ", "PRINT", "IF"}))
  {
    w := if c.Let? then "LET" else if c.Jump? || c.ComputedJump? then "GO"
      else if c.Read? then "READ" else if c.Print? then "PRINT" else "IF";
  }

  lemma {:induction false} StartNotFollow(toks: seq<Token>, p: nat, w: string)
    requires p < |toks| && (toks[p].kind == Identifier || (toks[p].kind == Keyword(w) && w in {"LET", "GO", "READ", "PRINT", "IF"}))
    ensures !Follow(toks, p)
  {
    assert toks[p].kind.Keyword? ==> w[0] != 'E';
  }
}
