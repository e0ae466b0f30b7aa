/**
 * Properties of the Main.java grammar: what a parse call reports, which
 * programs it accepts, how computed jumps and labels are checked, and that
 * the expression rule consumes exactly a well-formed expression.
 */
module MainProperties {
  import opened Chars
  import opened Wrappers
  import opened HandLexer
  import opened TokenStream
  import opened MainGrammar

  // ---------------------------------------------------------------------
  // Verdicts
  // ---------------------------------------------------------------------

  /** Lexing yields no tokens only for input that String.trim empties, so
      the "no tokens for non-empty input" message of parse is never printed. */
  lemma {:induction false} NoTokensOnlyForBlankInput(input: string)
    requires Lex(input) == Lexed([])
    ensures TrimsToEmpty(input)
  {
    LexEmptyIffBlank(input);
    forall k | 0 <= k < |input|
      ensures input[k] <= ' '
    {
      WhitespaceIsTrimmed(input[k]);
    }
  }

  /** Once the command sequence stops without an error, the cursor is at the
      end of the tokens or on END. */
  lemma {:induction false} CommandSeqStopsAtEnd(toks: seq<Token>, st: State)
    requires st.pos <= |toks| && !st.errorFound
    ensures var r := CommandSeq(toks, st);
      !r.errorFound ==> r.pos == |toks| || IsEnd(toks, r.pos)
    decreases |toks| - st.pos
  {
    if st.pos < |toks| && !IsEnd(toks, st.pos) {
      var s1 := Command(toks, st);
      if !s1.errorFound && Is(toks, s1.pos, Punctuation, ";") {
        CommandSeqStopsAtEnd(toks, s1.(pos := s1.pos + 1));
      }
    }
  }

  /** A parse call announces success and prints nothing, or fails and prints
      exactly one message. */
  lemma {:induction false} ParseReportsExactlyOneErrorOnFailure(input: string)
    ensures var v := ParseInput(input);
      && (v.accepted ==> v.Log() == [] && !v.final.errorFound)
      && (!v.accepted ==> |v.Log()| == 1 && v.final.errorFound)
  {
    match Lex(input)
    case LexFailed(_, _) =>
    case Lexed(toks) =>
      if toks == [] {
        NoTokensOnlyForBlankInput(input);
      } else if toks != [EndToken] {
        CommandSeqStopsAtEnd(toks, Fresh);
      }
  }

  /** An accepted input lexes to tokens that end with END; apart from the
      lone END, which is accepted before the grammar runs, the parse leaves
      the cursor after it. */
  lemma {:induction false} AcceptedProgramsEndWithEnd(input: string)
    requires ParseInput(input).accepted
    ensures Lex(input).Lexed?
    ensures var toks := Lex(input).tokens;
      && |toks| > 0 && toks[|toks| - 1] == EndToken
      && (toks == [EndToken] || ParseInput(input).final.pos == |toks|)
  {
    var toks := Lex(input).tokens;
    if toks != [EndToken] {
      CommandSeqStopsAtEnd(toks, Fresh);
    }
  }

  /** Input made only of whitespace is rejected with the empty-program
      message at token index 0. */
  lemma {:induction false} BlankInputIsEmptyProgram(input: string)
    requires forall k :: 0 <= k < |input| ==> IsWhitespace(input[k])
    ensures ParseInput(input) == Verdict(false, State(0, {}, true, [Diag(EmptyProgram, 0)]))
  {
    LexEmptyIffBlank(input);
    NoTokensOnlyForBlankInput(input);
  }

  // ---------------------------------------------------------------------
  // Computed jumps: GO TO n OF l1, ..., lk
  // ---------------------------------------------------------------------

  /** The tokens `, l1 , l2 , ... , lk` stand in `toks` from index p on: the
      labels after the first one of a computed jump. */
  predicate CommaLabelsAt(toks: seq<Token>, p: nat, names: seq<string>)
    decreases names
  {
    names == [] ||
    (p + 1 < |toks| && toks[p] == Token(Punctuation, ",") && toks[p + 1] == Token(Ide, names[0])
     && CommaLabelsAt(toks, p + 2, names[1..]))
  }

  /** The label-list loop reads `, l2 , ... , lk` in full and counts the labels. */
  lemma {:induction false} LabelTailCounts(toks: seq<Token>, st: State, k: nat, names: seq<string>)
    requires st.pos <= |toks| && !st.errorFound
    requires CommaLabelsAt(toks, st.pos, names) && !Is(toks, st.pos + 2 * |names|, Punctuation, ",")
    ensures LabelTail(toks, st, k) == (st.(pos := st.pos + 2 * |names|), k + |names|)
    decreases names
  {
    if names != [] {
      LabelTailCounts(toks, st.(pos := st.pos + 2), k + 1, names[1..]);
    }
  }

  /** After `GO TO n`: `OF` and the label list are read in full, then the
      range check runs with the number of labels. */
  lemma {:induction false} ComputedGoReadsList(toks: seq<Token>, s: State, numeral: string, first: string, rest: seq<string>)
    requires !s.errorFound && s.pos + 2 <= |toks|
    requires toks[s.pos] == Token(Keyword, "OF") && toks[s.pos + 1] == Token(Ide, first)
    requires CommaLabelsAt(toks, s.pos + 2, rest) && !Is(toks, s.pos + 2 + 2 * |rest|, Punctuation, ",")
    ensures ComputedGoRule(toks, s, numeral) == JumpCheck(s.(pos := s.pos + 2 + 2 * |rest|), numeral, 1 + |rest|)
  {
    LabelTailCounts(toks, s.(pos := s.pos + 2), 1, rest);
    ComputedGoAfterList(toks, s, numeral, s.(pos := s.pos + 2 + 2 * |rest|), 1 + |rest|);
  }

  lemma {:induction false} ComputedGoAfterList(toks: seq<Token>, s: State, numeral: string, s2: State, k: nat)
    requires !s.errorFound && Is(toks, s.pos, Keyword, "OF") && IsCat(toks, s.pos + 1, Ide)
    requires LabelTail(toks, s.(pos := s.pos + 2), 1) == (s2, k) && !s2.errorFound
    ensures ComputedGoRule(toks, s, numeral) == JumpCheck(s2, numeral, k)
  {
  }

  /** GO TO n OF l1, ..., lk with a numeral n that fits in an int: the
      command reads the whole list and is accepted exactly when 1 <= n <= k;
      otherwise the out-of-range message names n and k. */
  lemma {:induction false} ComputedJumpChecksRange(toks: seq<Token>, st: State, numeral: string, names: seq<string>)
    requires !st.errorFound && |names| > 0 && st.pos + 5 <= |toks|
    requires |numeral| > 0 && AllDigits(numeral) && NumeralValue(numeral) <= MaxJavaInt
    requires toks[st.pos] == Token(Keyword, "GO") && toks[st.pos + 1] == Token(Keyword, "TO")
    requires toks[st.pos + 2] == Token(Num, numeral) && toks[st.pos + 3] == Token(Keyword, "OF")
    requires toks[st.pos + 4] == Token(Ide, names[0]) && CommaLabelsAt(toks, st.pos + 5, names[1..])
    requires !Is(toks, st.pos + 3 + 2 * |names|, Punctuation, ",")
    ensures var n := NumeralValue(numeral);
      var after := st.(pos := st.pos + 3 + 2 * |names|);
      Command(toks, st) ==
        if 1 <= n <= |names| then after else Report(after, JumpIndexOutOfRange(n, |names|))
  {
    GoComputedChecksRange(toks, st, numeral, names);
    CommandDispatchesGo(toks, st);
  }

  /** The same for the rest of the command, from the token after GO. */
  lemma {:induction false} GoComputedChecksRange(toks: seq<Token>, st: State, numeral: string, names: seq<string>)
    requires !st.errorFound && |names| > 0 && st.pos + 5 <= |toks|
    requires |numeral| > 0 && AllDigits(numeral) && NumeralValue(numeral) <= MaxJavaInt
    requires toks[st.pos] == Token(Keyword, "GO") && toks[st.pos + 1] == Token(Keyword, "TO")
    requires toks[st.pos + 2] == Token(Num, numeral) && toks[st.pos + 3] == Token(Keyword, "OF")
    requires toks[st.pos + 4] == Token(Ide, names[0]) && CommaLabelsAt(toks, st.pos + 5, names[1..])
    requires !Is(toks, st.pos + 3 + 2 * |names|, Punctuation, ",")
    ensures var n := NumeralValue(numeral);
      var after := st.(pos := st.pos + 3 + 2 * |names|);
      GoRule(toks, st.(pos := st.pos + 1)) ==
        if 1 <= n <= |names| then after else Report(after, JumpIndexOutOfRange(n, |names|))
  {
    ComputedGoFromGo(toks, st, numeral, names);
    GoDispatchesComputed(toks, st.(pos := st.pos + 1));
  }

  /** The list part, located from the GO token. */
  lemma {:induction false} ComputedGoFromGo(toks: seq<Token>, st: State, numeral: string, names: seq<string>)
    requires !st.errorFound && |names| > 0 && st.pos + 5 <= |toks|
    requires |numeral| > 0 && AllDigits(numeral) && NumeralValue(numeral) <= MaxJavaInt
    requires toks[st.pos] == Token(Keyword, "GO") && toks[st.pos + 1] == Token(Keyword, "TO")
    requires toks[st.pos + 2] == Token(Num, numeral) && toks[st.pos + 3] == Token(Keyword, "OF")
    requires toks[st.pos + 4] == Token(Ide, names[0]) && CommaLabelsAt(toks, st.pos + 5, names[1..])
    requires !Is(toks, st.pos + 3 + 2 * |names|, Punctuation, ",")
    ensures ComputedGoRule(toks, st.(pos := st.pos + 3), numeral)
      == JumpCheck(st.(pos := st.pos + 3 + 2 * |names|), numeral, |names|)
  {
    var s3 := st.(pos := st.pos + 3);
    ComputedGoReadsList(toks, s3, numeral, names[0], names[1..]);
    assert s3.(pos := s3.pos + 2 + 2 * |names[1..]|) == st.(pos := st.pos + 3 + 2 * |names|);
  }

  lemma {:induction false} GoDispatchesComputed(toks: seq<Token>, s: State)
    requires !s.errorFound && Is(toks, s.pos, Keyword, "TO") && IsCat(toks, s.pos + 1, Num)
    ensures GoRule(toks, s) == ComputedGoRule(toks, s.(pos := s.pos + 2), toks[s.pos + 1].value)
  {
  }

  lemma {:induction false} CommandDispatchesGo(toks: seq<Token>, st: State)
    requires !st.errorFound && Is(toks, st.pos, Keyword, "GO")
    ensures Command(toks, st) == GoRule(toks, st.(pos := st.pos + 1))
  {
  }

  /** The tokens `seg` occur in `toks` from index p on. */
  predicate At(toks: seq<Token>, p: nat, seg: seq<Token>) {
    p + |seg| <= |toks| && toks[p..p + |seg|] == seg
  }

  lemma {:induction false} AtSplit(toks: seq<Token>, p: nat, a: seq<Token>, b: seq<Token>)
    requires At(toks, p, a + b)
    ensures At(toks, p, a) && At(toks, p + |a|, b)
  {
    assert toks[p..p + |a|] == (a + b)[..|a|];
    assert toks[p + |a|..p + |a| + |b|] == (a + b)[|a|..];
  }

  /** A label already defined in this parse is reported where it stands,
      without consuming it; a new one is recorded and the command after it
      is parsed. */
  lemma {:induction false} LabelDefinitions(toks: seq<Token>, st: State, name: string)
    requires !st.errorFound && st.pos + 2 <= |toks|
    requires toks[st.pos] == Token(Ide, name) && toks[st.pos + 1] == Token(Punctuation, ":")
    ensures name in st.labels ==> Command(toks, st) == Report(st, DuplicateLabel(name))
    ensures name !in st.labels ==>
      Command(toks, st) == Command(toks, st.(labels := st.labels + {name}, pos := st.pos + 2))
  {
  }

  // ---------------------------------------------------------------------
  // Expressions
  // ---------------------------------------------------------------------

  /** Expressions as the grammar reads them: operands joined by + - * /
      from left to right, with parentheses around sub-expressions. */
  datatype Operand = Leaf(t: Token) | Group(e: Expr)
  datatype Expr = Expr(head: Operand, tail: seq<Step>)
  datatype Step = Step(op: string, arg: Operand)

  predicate ValidOperand(o: Operand)
    decreases o
  {
    match o
    case Leaf(t) => t.category == Ide || t.category == Num
    case Group(e) => ValidExpr(e)
  }

  predicate ValidExpr(e: Expr)
    decreases e
  {
    ValidOperand(e.head) && ValidSteps(e.tail)
  }

  predicate ValidSteps(steps: seq<Step>)
    decreases steps
  {
    steps != [] ==> IsArithSpelling(steps[0].op) && ValidOperand(steps[0].arg) && ValidSteps(steps[1..])
  }

  function OperandTokens(o: Operand): (r: seq<Token>)
    ensures |r| > 0
    decreases o
  {
    match o
    case Leaf(t) => [t]
    case Group(e) => [Token(Punctuation, "(")] + ExprTokens(e) + [Token(Punctuation, ")")]
  }

  function ExprTokens(e: Expr): (r: seq<Token>)
    ensures |r| > 0
    decreases e
  {
    OperandTokens(e.head) + StepTokens(e.tail)
  }

  function StepTokens(steps: seq<Step>): seq<Token>
    decreases steps
  {
    if steps == [] then [] else [Token(Operator, steps[0].op)] + OperandTokens(steps[0].arg) + StepTokens(steps[1..])
  }

  /** factor reads a whole operand, up to q. */
  lemma {:induction false} FactorReadsOperand(toks: seq<Token>, st: State, o: Operand, q: nat)
    requires ValidOperand(o) && !st.errorFound && At(toks, st.pos, OperandTokens(o))
    requires q == st.pos + |OperandTokens(o)|
    ensures Factor(toks, st) == st.(pos := q)
    decreases o, 1
  {
    match o
    case Leaf(t) =>
      assert toks[st.pos] == t;
    case Group(e) =>
      var open, close := Token(Punctuation, "("), Token(Punctuation, ")");
      AtSplit(toks, st.pos, [open] + ExprTokens(e), [close]);
      AtSplit(toks, st.pos, [open], ExprTokens(e));
      assert toks[st.pos] == open;
      assert toks[q - 1] == close;
      ExpressionReadsExpr(toks, st.(pos := st.pos + 1), e, q - 1);
  }

  /** expression reads a whole expression, up to q, when the token at q is
      not an arithmetic operator. */
  lemma {:induction false} ExpressionReadsExpr(toks: seq<Token>, st: State, e: Expr, q: nat)
    requires ValidExpr(e) && !st.errorFound && At(toks, st.pos, ExprTokens(e))
    requires q == st.pos + |ExprTokens(e)| && !IsArith(toks, q)
    ensures Expression(toks, st) == st.(pos := q)
    decreases e, 2
  {
    var q1 := st.pos + |OperandTokens(e.head)|;
    AtSplit(toks, st.pos, OperandTokens(e.head), StepTokens(e.tail));
    FactorReadsOperand(toks, st, e.head, q1);
    ExprTailReadsSteps(toks, st.(pos := q1), e.tail, q);
  }

  /** The operator loop reads exactly the operator/operand steps in front
      of it, up to q. */
  lemma {:induction false} ExprTailReadsSteps(toks: seq<Token>, st: State, steps: seq<Step>, q: nat)
    requires ValidSteps(steps) && !st.errorFound && At(toks, st.pos, StepTokens(steps))
    requires q == st.pos + |StepTokens(steps)| && !IsArith(toks, q)
    ensures ExprTail(toks, st) == st.(pos := q)
    decreases steps
  {
    if steps != [] {
      var q1 := StepSplit(toks, st.pos, steps, q);
      ExprTailStep(toks, st);
      FactorReadsOperand(toks, st.(pos := st.pos + 1), steps[0].arg, q1);
      ExprTailReadsSteps(toks, st.(pos := q1), steps[1..], q);
    }
  }

  /** The first step of a step list ending at q: its operator, then its
      operand ending at q1, then the remaining steps. */
  lemma {:induction false} StepSplit(toks: seq<Token>, p: nat, steps: seq<Step>, q: nat) returns (q1: nat)
    requires steps != [] && ValidSteps(steps) && At(toks, p, StepTokens(steps)) && q == p + |StepTokens(steps)|
    ensures IsArith(toks, p) && q1 == p + 1 + |OperandTokens(steps[0].arg)|
    ensures ValidOperand(steps[0].arg) && At(toks, p + 1, OperandTokens(steps[0].arg))
    ensures ValidSteps(steps[1..]) && At(toks, q1, StepTokens(steps[1..])) && q == q1 + |StepTokens(steps[1..])|
  {
    var op := Token(Operator, steps[0].op);
    var arg := OperandTokens(steps[0].arg);
    q1 := p + 1 + |arg|;
    AtSplit(toks, p, [op] + arg, StepTokens(steps[1..]));
    AtSplit(toks, p, [op], arg);
    assert toks[p] == op;
  }

  lemma {:induction false} ExprTailStep(toks: seq<Token>, st: State)
    requires st.pos <= |toks| && !st.errorFound && IsArith(toks, st.pos)
    ensures ExprTail(toks, st) == ExprTail(toks, Factor(toks, st.(pos := st.pos + 1)))
  {
  }

  /** An unclosed parenthesis: after `( e` comes a token other than `)`,
      so factor reports the missing `)` where that token stands. */
  lemma {:induction false} UnclosedParenthesis(toks: seq<Token>, st: State, e: Expr)
    requires ValidExpr(e) && !st.errorFound && At(toks, st.pos, [Token(Punctuation, "(")] + ExprTokens(e))
    requires var q := st.pos + 1 + |ExprTokens(e)|;
      !IsArith(toks, q) && !Is(toks, q, Punctuation, ")")
    ensures Factor(toks, st) == Report(st.(pos := st.pos + 1 + |ExprTokens(e)|), MissingCloseParen)
  {
    var s1 := st.(pos := st.pos + 1);
    AtSplit(toks, st.pos, [Token(Punctuation, "(")], ExprTokens(e));
    assert toks[st.pos] == Token(Punctuation, "(");
    ExpressionReadsExpr(toks, s1, e, s1.pos + |ExprTokens(e)|);
    FactorOpens(toks, st, s1.(pos := s1.pos + |ExprTokens(e)|));
  }

  /** factor on `(`, once expression has read up to `s`. */
  lemma {:induction false} FactorOpens(toks: seq<Token>, st: State, s: State)
    requires !st.errorFound && Is(toks, st.pos, Punctuation, "(")
    requires Expression(toks, st.(pos := st.pos + 1)) == s
    ensures Factor(toks, st) == if Is(toks, s.pos, Punctuation, ")") then s.(pos := s.pos + 1) else Report(s, MissingCloseParen)
  {
  }

  lemma {:induction false} AtJoin(toks: seq<Token>, p: nat, a: seq<Token>, b: seq<Token>)
    requires At(toks, p, a) && At(toks, p + |a|, b)
    ensures At(toks, p, a + b)
  {
    assert toks[p..p + |a| + |b|] == toks[p..p + |a|] + toks[p + |a|..p + |a| + |b|];
  }

  /** Soundness of factor: when it meets no error and stops before the end
      of the tokens, it has read exactly one well-formed operand, ending at q. */
  lemma {:induction false} OperandOf(toks: seq<Token>, st: State) returns (o: Operand, q: nat)
    requires st.pos <= |toks| && !st.errorFound
    requires var r := Factor(toks, st); !r.errorFound && r.pos < |toks|
    ensures ValidOperand(o) && At(toks, st.pos, OperandTokens(o)) && q == st.pos + |OperandTokens(o)|
    ensures Factor(toks, st) == st.(pos := q)
    decreases |toks| - st.pos, 0
  {
    var t := toks[st.pos];
    if t.category == Ide || t.category == Num {
      o, q := Leaf(t), st.pos + 1;
      assert toks[st.pos..st.pos + 1] == [t];
    } else {
      var e, q1 := ExprOf(toks, st.(pos := st.pos + 1));
      o, q := Group(e), q1 + 1;
      GroupJoin(toks, st.pos, e, q1);
    }
  }

  /** `(`, the expression e ending at q1, then `)`, from p on. */
  lemma {:induction false} GroupJoin(toks: seq<Token>, p: nat, e: Expr, q1: nat)
    requires Is(toks, p, Punctuation, "(") && At(toks, p + 1, ExprTokens(e)) && q1 == p + 1 + |ExprTokens(e)|
    requires Is(toks, q1, Punctuation, ")")
    ensures At(toks, p, OperandTokens(Group(e))) && q1 + 1 == p + |OperandTokens(Group(e))|
  {
    var open, close := Token(Punctuation, "("), Token(Punctuation, ")");
    assert toks[p..p + 1] == [open];
    AtJoin(toks, p, [open], ExprTokens(e));
    assert toks[q1..q1 + 1] == [close];
    AtJoin(toks, p, [open] + ExprTokens(e), [close]);
  }

  /** Soundness of expression: when it meets no error and stops before the
      end of the tokens, it has read exactly a well-formed flat chain, ending
      at q, and the token at q is not an arithmetic operator. */
  lemma {:induction false} ExprOf(toks: seq<Token>, st: State) returns (e: Expr, q: nat)
    requires st.pos <= |toks| && !st.errorFound
    requires var r := Expression(toks, st); !r.errorFound && r.pos < |toks|
    ensures ValidExpr(e) && At(toks, st.pos, ExprTokens(e)) && q == st.pos + |ExprTokens(e)|
    ensures Expression(toks, st) == st.(pos := q) && !IsArith(toks, q)
    decreases |toks| - st.pos, 2
  {
    var o, q1 := OperandOf(toks, st);
    var steps;
    steps, q := StepsOf(toks, st.(pos := q1));
    e := Expr(o, steps);
    AtJoin(toks, st.pos, OperandTokens(o), StepTokens(steps));
  }

  /** Soundness of the operator loop: it reads exactly operator/operand
      steps, ending at q, in front of a token that is not an operator. */
  lemma {:induction false} StepsOf(toks: seq<Token>, st: State) returns (steps: seq<Step>, q: nat)
    requires st.pos <= |toks| && !st.errorFound
    requires var r := ExprTail(toks, st); !r.errorFound && r.pos < |toks|
    ensures ValidSteps(steps) && At(toks, st.pos, StepTokens(steps)) && q == st.pos + |StepTokens(steps)|
    ensures ExprTail(toks, st) == st.(pos := q) && !IsArith(toks, q)
    decreases |toks| - st.pos, 1
  {
    if IsArith(toks, st.pos) {
      var s1 := st.(pos := st.pos + 1);
      ExprTailStep(toks, st);
      var o, q1 := OperandOf(toks, s1);
      var rest;
      rest, q := StepsOf(toks, s1.(pos := q1));
      steps := [Step(toks[st.pos].value, o)] + rest;
      assert steps[1..] == rest;
      StepsJoin(toks, st.pos, steps, q1, q);
    } else {
      steps, q := [], st.pos;
      assert toks[st.pos..st.pos] == [];
    }
  }

  /** An operator, its operand ending at q1, then more steps ending at q, from p on. */
  lemma {:induction false} StepsJoin(toks: seq<Token>, p: nat, steps: seq<Step>, q1: nat, q: nat)
    requires steps != [] && IsArith(toks, p) && toks[p].value == steps[0].op
    requires ValidOperand(steps[0].arg) && At(toks, p + 1, OperandTokens(steps[0].arg))
    requires q1 == p + 1 + |OperandTokens(steps[0].arg)|
    requires ValidSteps(steps[1..]) && At(toks, q1, StepTokens(steps[1..])) && q == q1 + |StepTokens(steps[1..])|
    ensures ValidSteps(steps) && At(toks, p, StepTokens(steps)) && q == p + |StepTokens(steps)|
  {
    var op := Token(Operator, steps[0].op);
    assert toks[p..p + 1] == [op];
    AtJoin(toks, p, [op], OperandTokens(steps[0].arg));
    AtJoin(toks, p, [op] + OperandTokens(steps[0].arg), StepTokens(steps[1..]));
  }

  /** expression ends without error at a token q before the end of the
      tokens exactly when the tokens it passed are the written form of a
      well-formed flat chain and q is not an arithmetic operator. */
  lemma {:induction false} ExpressionIsFlatChain(toks: seq<Token>, st: State, q: nat)
    requires !st.errorFound && st.pos <= q < |toks|
    ensures Expression(toks, st) == st.(pos := q) <==>
      (exists e :: ValidExpr(e) && toks[st.pos..q] == ExprTokens(e)) && !IsArith(toks, q)
  {
    if Expression(toks, st) == st.(pos := q) {
      var e, q1 := ExprOf(toks, st);
      assert toks[st.pos..q] == ExprTokens(e);
    }
    if (exists e :: ValidExpr(e) && toks[st.pos..q] == ExprTokens(e)) && !IsArith(toks, q) {
      var e :| ValidExpr(e) && toks[st.pos..q] == ExprTokens(e);
      ExpressionReadsExpr(toks, st, e, q);
    }
  }
}
