/**
 * SingleFileParser.java and tempCodeRunnerFile.py side by side. On the same
 * tokens their expression, assignment, comparison, READ and PRINT parsers stop
 * at the same token and fail at the same token with corresponding errors;
 * their programs differ in the empty command, labels, `;` before END, the
 * THEN branch and GO TO ... OF.
 */
module TableVersions {
  import opened TableLexer
  import opened TableSyntax
  import S = SingleFileGrammar
  import T = TempRunnerGrammar
  import SingleFileProperties

  /** The error of tempCodeRunnerFile.py that reports what a SingleFileParser.java error reports. */
  predicate Translates(s: S.ParseError, t: T.SyntaxError) {
    match s
    case ExpectedEnd => t == T.ExpectedToken(T.EndKw)
    case ExtraTokensAfterEnd => t == T.ExtraTokens
    case ExpectedLet => t == T.ExpectedToken(T.LetKw)
    case ExpectedIdentifierAfterLet => t == T.ExpectedToken(Identifier)
    case ExpectedAssign => t == T.ExpectedToken(Assign)
    case ExpectedCloseParen => t == T.ExpectedToken(RParen)
    case InvalidFactor => t == T.InvalidFactor
    case ExpectedGo => t == T.ExpectedToken(T.GoKw)
    case ExpectedTo => t == T.ExpectedToken(T.ToKw)
    case ExpectedJumpLabel => t == T.ExpectedToken(Identifier)
    case ExpectedRead => t == T.ExpectedToken(T.ReadKw)
    case ExpectedIdentifierAfterComma => t == T.ExpectedToken(Identifier)
    case ExpectedPrint => t == T.ExpectedToken(T.PrintKw)
    case ExpectedExpressionAfterComma => t == T.ExpectedExpressionAfterComma
    case ExpectedIf => t == T.ExpectedToken(T.IfKw)
    case ExpectedThen => t == T.ExpectedToken(T.ThenKw)
    case MissingThenCommand => false
    case ExpectedElse => t == T.ExpectedToken(T.ElseKw)
    case ExpectedComparison => t == T.ExpectedComparison
  }

  /** Both stop at the same token, both normally or both with corresponding errors. */
  predicate Corresponds(s: S.Result, t: T.Result) {
    s.pos == t.pos && s.Ok? == t.Ok? && (s.Thrown? ==> Translates(s.error, t.error))
  }

  // ----- Expressions -----

  lemma {:induction false} FactorsAgree(toks: seq<Token>, p: nat)
    requires p <= |toks|
    ensures Corresponds(S.Factor(toks, p), T.Factor(toks, p))
    decreases |toks| - p, 1
  {
    if !(At(toks, p, Identifier) || At(toks, p, Number)) && At(toks, p, LParen) {
      ExpressionsAgree(toks, p + 1);
    }
  }

  lemma {:induction false} TermTailsAgree(toks: seq<Token>, p: nat)
    requires p <= |toks|
    ensures Corresponds(S.TermTail(toks, p), T.TermLoop(toks, p))
    decreases |toks| - p, 2
  {
    if At(toks, p, Star) || At(toks, p, Slash) {
      FactorsAgree(toks, p + 1);
      var a := S.Factor(toks, p + 1);
      if a.Ok? {
        TermTailsAgree(toks, a.pos);
      }
    }
  }

  lemma {:induction false} TermsAgree(toks: seq<Token>, p: nat)
    requires p <= |toks|
    ensures Corresponds(S.Term(toks, p), T.Term(toks, p))
    decreases |toks| - p, 3
  {
    FactorsAgree(toks, p);
    var a := S.Factor(toks, p);
    if a.Ok? {
      TermTailsAgree(toks, a.pos);
    }
  }

  lemma {:induction false} ExpressionTailsAgree(toks: seq<Token>, p: nat)
    requires p <= |toks|
    ensures Corresponds(S.ExpressionTail(toks, p), T.ExpressionLoop(toks, p))
    decreases |toks| - p, 4
  {
    if At(toks, p, Plus) || At(toks, p, Minus) {
      TermsAgree(toks, p + 1);
      var a := S.Term(toks, p + 1);
      if a.Ok? {
        ExpressionTailsAgree(toks, a.pos);
      }
    }
  }

  /** parseExpressao and _analisar_expressao agree on every token list. */
  lemma {:induction false} ExpressionsAgree(toks: seq<Token>, p: nat)
    requires p <= |toks|
    ensures Corresponds(S.Expression(toks, p), T.Expression(toks, p))
    decreases |toks| - p, 5
  {
    TermsAgree(toks, p);
    var a := S.Term(toks, p);
    if a.Ok? {
      ExpressionTailsAgree(toks, a.pos);
    }
  }

  /** So _analisar_expressao, too, accepts exactly the written forms of well-formed sums. */
  lemma TempExpressionIsWrittenSum(toks: seq<Token>, p: nat, q: nat)
    requires p <= q <= |toks|
    ensures T.Expression(toks, p) == Ok(q) <==>
      (exists e :: SumOk(e) && toks[p..q] == SumTokens(e)) && NoMulOp(toks, q) && NoAddOp(toks, q)
  {
    ExpressionsAgree(toks, p);
    SingleFileProperties.ExpressionIsWrittenSum(toks, p, q);
  }

  // ----- Simple commands -----

  lemma AssignmentsAgree(toks: seq<Token>, p: nat)
    requires p <= |toks|
    ensures Corresponds(S.Assignment(toks, p), T.Assignment(toks, p))
  {
    if At(toks, p, S.LetKw) && At(toks, p + 1, Identifier) && At(toks, p + 2, Assign) {
      ExpressionsAgree(toks, p + 3);
    }
  }

  lemma ComparisonsAgree(toks: seq<Token>, p: nat)
    requires p <= |toks|
    ensures Corresponds(S.Comparison(toks, p), T.Comparison(toks, p))
  {
    ExpressionsAgree(toks, p);
    var a := S.Expression(toks, p);
    if a.Ok? && (At(toks, a.pos, Eq) || At(toks, a.pos, Gt) || At(toks, a.pos, Lt)) {
      ExpressionsAgree(toks, a.pos + 1);
    }
  }

  lemma {:induction false} IdentifierLoopsAgree(toks: seq<Token>, p: nat)
    requires p <= |toks|
    ensures Corresponds(S.IdentifierTail(toks, p), T.IdentifierLoop(toks, p))
    decreases |toks| - p
  {
    if At(toks, p, Comma) && At(toks, p + 1, Identifier) {
      IdentifierLoopsAgree(toks, p + 2);
    }
  }

  lemma ReadsAgree(toks: seq<Token>, p: nat)
    requires p <= |toks|
    ensures Corresponds(S.Read(toks, p), T.Read(toks, p))
  {
    if At(toks, p, S.ReadKw) && At(toks, p + 1, Identifier) {
      IdentifierLoopsAgree(toks, p + 2);
    }
  }

  lemma {:induction false} ExpressionListLoopsAgree(toks: seq<Token>, p: nat)
    requires p <= |toks|
    ensures Corresponds(S.ExpressionListTail(toks, p), T.ExpressionListLoop(toks, p))
    decreases |toks| - p
  {
    if At(toks, p, Comma) && S.ExprStart(toks, p + 1) {
      ExpressionsAgree(toks, p + 1);
      var a := S.Expression(toks, p + 1);
      if a.Ok? {
        ExpressionListLoopsAgree(toks, a.pos);
      }
    }
  }

  lemma PrintsAgree(toks: seq<Token>, p: nat)
    requires p <= |toks|
    ensures Corresponds(S.Print(toks, p), T.Print(toks, p))
  {
    if At(toks, p, S.PrintKw) && S.ExprStart(toks, p + 1) {
      ExpressionsAgree(toks, p + 1);
      var a := S.Expression(toks, p + 1);
      if a.Ok? {
        ExpressionListLoopsAgree(toks, a.pos);
      }
    }
  }

  /** GO TO agrees unless an OF follows the label, which only the Python lexer makes a keyword. */
  lemma JumpsAgree(toks: seq<Token>, p: nat)
    requires p <= |toks| && !At(toks, p + 3, T.OfKw)
    ensures Corresponds(S.Jump(toks, p), T.Jump(toks, p))
  {
  }

  /** The Java lexer never produces the keyword OF, so on its tokens GO TO always agrees. */
  lemma JavaTokensJumpsAgree(input: string, p: nat)
    requires Tokenize(JavaRegex, input).Tokens? && p <= |Tokenize(JavaRegex, input).tokens|
    ensures Corresponds(S.Jump(Tokenize(JavaRegex, input).tokens, p), T.Jump(Tokenize(JavaRegex, input).tokens, p))
  {
    var toks := Tokenize(JavaRegex, input).tokens;
    TokenizeWellFormed(JavaRegex, input);
    if p + 3 < |toks| {
      assert toks[p + 3] in toks;
      assert WellFormed(JavaRegex, toks[p + 3]);
    }
    JumpsAgree(toks, p);
  }

  // ----- Where the two programs part -----

  /** A lone identifier or number before a token that continues no chain is a whole expression for both. */
  lemma AtomIsExpression(toks: seq<Token>, p: nat)
    requires p < |toks| && (toks[p].kind == Identifier || toks[p].kind == Number)
    requires NoMulOp(toks, p + 1) && NoAddOp(toks, p + 1)
    ensures S.Expression(toks, p) == Ok(p + 1) && T.Expression(toks, p) == Ok(p + 1)
  {
    var e := Lone(Single(Atom(toks[p])));
    assert FactorTokens(Atom(toks[p])) == [toks[p]];
    assert ProductTokens(Single(Atom(toks[p]))) == [toks[p]];
    assert SumTokens(e) == [toks[p]] == toks[p..p + 1];
    SingleFileProperties.SumReadsTree(e, toks, p);
    ExpressionsAgree(toks, p);
  }

  const EndTok := Token(S.EndKw, "END")
  const SemiTok := Token(Semi, ";")

  /** `; END`: SingleFileParser.java reads an empty command after `;`,
      tempCodeRunnerFile.py refuses `;` in front of END. */
  lemma SemicolonBeforeEndParts()
    ensures S.Program([SemiTok, EndTok]) == Ok(2)
    ensures T.Analyze([SemiTok, EndTok]) == Thrown(T.SemicolonBeforeEnd, 1)
  {
    var toks := [SemiTok, EndTok];
    assert S.Command(toks, 1) == Ok(1);
    assert S.SequenceTail(toks, 0) == Ok(1);
    assert T.Wrapped(toks, 0) == Ok(0);
    assert T.SequenceLoop(toks, 0) == Thrown(T.SemicolonBeforeEnd, 1);
  }

  const IfTok := Token(S.IfKw, "IF")
  const ThenTok := Token(S.ThenKw, "THEN")
  const ElseTok := Token(S.ElseKw, "ELSE")

  /** IF A = B THEN ELSE END: the empty THEN branch is refused only by SingleFileParser.java. */
  const EmptyThenBranch := [IfTok, Token(Identifier, "A"), Token(Eq, "="), Token(Identifier, "B"), ThenTok, ElseTok, EndTok]

  lemma EmptyThenComparison()
    ensures S.Comparison(EmptyThenBranch, 1) == Ok(4) && T.Comparison(EmptyThenBranch, 1) == Ok(4)
  {
    AtomIsExpression(EmptyThenBranch, 1);
    AtomIsExpression(EmptyThenBranch, 3);
  }

  lemma EmptyThenJavaDecision()
    ensures S.Decision(EmptyThenBranch, 0) == Thrown(S.MissingThenCommand, 5)
  {
    EmptyThenComparison();
  }

  lemma EmptyThenBranchRefusedByJava()
    ensures S.Program(EmptyThenBranch) == Thrown(S.MissingThenCommand, 5)
  {
    EmptyThenJavaDecision();
    assert S.Command(EmptyThenBranch, 0) == Thrown(S.MissingThenCommand, 5);
  }

  lemma EmptyThenPythonBranches()
    ensures T.Wrapped(EmptyThenBranch, 5) == Ok(5) && T.Wrapped(EmptyThenBranch, 6) == Ok(6)
  {
    assert T.Command(EmptyThenBranch, 5) == Ok(5);
    assert T.Command(EmptyThenBranch, 6) == Ok(6);
  }

  lemma EmptyThenPythonDecision()
    ensures T.Decision(EmptyThenBranch, 0) == Ok(6)
  {
    EmptyThenComparison();
    EmptyThenPythonBranches();
  }

  lemma EmptyThenPythonCommand()
    ensures T.Wrapped(EmptyThenBranch, 0) == Ok(6)
  {
    EmptyThenPythonDecision();
    assert EmptyThenBranch[0].kind == T.IfKw && !T.LabelAt(EmptyThenBranch, 0);
    assert T.Command(EmptyThenBranch, 0) == T.Decision(EmptyThenBranch, 0);
  }

  lemma EmptyThenBranchAcceptedByPython()
    ensures T.Analyze(EmptyThenBranch) == Ok(7)
  {
    EmptyThenPythonCommand();
    assert T.SequenceLoop(EmptyThenBranch, 6) == Ok(6);
    assert T.CommandSequence(EmptyThenBranch, 0) == Ok(6);
    assert T.Program(EmptyThenBranch) == Ok(7);
  }

  /** L: M: END: SingleFileParser.java takes any number of labels, tempCodeRunnerFile.py one. */
  const TwoLabels := [Token(Identifier, "L"), Token(Colon, ":"), Token(Identifier, "M"), Token(Colon, ":"), EndTok]

  lemma TwoLabelsParts()
    ensures S.Program(TwoLabels) == Ok(5)
    ensures T.Analyze(TwoLabels) == Thrown(T.InvalidCommand("M"), 2)
  {
    var toks := TwoLabels;
    assert S.Command(toks, 4) == Ok(4);
    assert S.Command(toks, 2) == Ok(4);
    assert S.Command(toks, 0) == Ok(4);
    assert S.CommandSequence(toks, 0) == Ok(4);
    assert T.Wrapped(toks, 0) == Thrown(T.InvalidCommand("M"), 2);
  }

  /** GO TO L OF A END as the Java lexer writes it (OF an identifier): the
      jump ends at OF and END is missing there. */
  const JumpOfJava := [Token(S.GoKw, "GO"), Token(S.ToKw, "TO"), Token(Identifier, "L"), Token(Identifier, "OF"), Token(Identifier, "A"), EndTok]

  lemma JumpOfJavaRefused()
    ensures S.Program(JumpOfJava) == Thrown(S.ExpectedEnd, 3)
  {
    var js := JumpOfJava;
    assert S.Jump(js, 0) == Ok(3);
    assert S.Command(js, 0) == Ok(3);
    assert S.SequenceTail(js, 3) == Ok(3);
    assert S.CommandSequence(js, 0) == Ok(3);
  }

  /** The same line as the Python lexer writes it (OF a keyword): the label list is read. */
  const JumpOfPython := [Token(S.GoKw, "GO"), Token(S.ToKw, "TO"), Token(Identifier, "L"), Token(T.OfKw, "OF"), Token(Identifier, "A"), EndTok]

  lemma JumpOfPythonAccepted()
    ensures T.Analyze(JumpOfPython) == Ok(6)
  {
    var ps := JumpOfPython;
    assert T.LabelLoop(ps, 5) == Ok(5);
    assert T.LabelList(ps, 4) == Ok(5);
    assert T.Jump(ps, 0) == Ok(5);
    assert T.Command(ps, 0) == Ok(5);
    assert T.Wrapped(ps, 0) == Ok(5);
    assert T.SequenceLoop(ps, 5) == Ok(5);
    assert T.CommandSequence(ps, 0) == Ok(5);
  }

  /** IF A >= B ...: with `>=` written as `>` then `=`, as both lexers write it,
      SingleFileParser.java fails on the `=` where a factor should start ... */
  lemma GreaterOrEqualRefusedByJava(toks: seq<Token>)
    requires |toks| >= 5 && toks[0] == IfTok && toks[1].kind == Identifier
    requires toks[2] == Token(Gt, ">") && toks[3] == Token(Eq, "=")
    ensures S.Program(toks) == Thrown(S.InvalidFactor, 3)
  {
    AtomIsExpression(toks, 1);
    assert S.Factor(toks, 3) == Thrown(S.InvalidFactor, 3);
    assert S.Term(toks, 3) == Thrown(S.InvalidFactor, 3);
    assert S.Expression(toks, 3) == Thrown(S.InvalidFactor, 3);
    assert S.Comparison(toks, 1) == Thrown(S.InvalidFactor, 3);
    assert S.Command(toks, 0) == Thrown(S.InvalidFactor, 3);
    assert S.CommandSequence(toks, 0) == Thrown(S.InvalidFactor, 3);
  }

  /** ... and so does tempCodeRunnerFile.py. */
  lemma GreaterOrEqualRefusedByPython(toks: seq<Token>)
    requires |toks| >= 5 && toks[0] == IfTok && toks[1].kind == Identifier
    requires toks[2] == Token(Gt, ">") && toks[3] == Token(Eq, "=")
    ensures T.Analyze(toks) == Thrown(T.InvalidFactor, 3)
  {
    AtomIsExpression(toks, 1);
    assert T.Factor(toks, 3) == Thrown(T.InvalidFactor, 3);
    assert T.Term(toks, 3) == Thrown(T.InvalidFactor, 3);
    assert T.Expression(toks, 3) == Thrown(T.InvalidFactor, 3);
    assert T.Comparison(toks, 1) == Thrown(T.InvalidFactor, 3);
    assert T.Decision(toks, 0) == Thrown(T.InvalidFactor, 3);
    assert T.Command(toks, 0) == Thrown(T.InvalidFactor, 3);
    assert T.Wrapped(toks, 0) == Thrown(T.InvalidFactor, 3);
    assert T.CommandSequence(toks, 0) == Thrown(T.InvalidFactor, 3);
  }
}
