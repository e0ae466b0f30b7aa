/**
 * The programs LexerParser (Main.java) accepts, as trees. A command is one of
 * the five keyword commands or a command with a label in front; a program is
 * commands separated by `;`, possibly with one `;` before END. The lemmas
 * prove that the parse accepts a token list exactly when it is the written
 * form of a well-formed program: every expression a flat chain, every list
 * non-empty, every computed jump in range, and no label defined twice.
 */
module MainPrograms {
  import opened Chars
  import opened HandLexer
  import opened TokenStream
  import opened MainGrammar
  import opened MainProperties

  datatype Cmd =
    | Labelled(name: string, body: Cmd)
    | Let(target: string, value: Expr)
    | Jump(target: string)
    | ComputedJump(numeral: string, targets: seq<string>)
    | Read(names: seq<string>)
    | Print(values: seq<Expr>)
    | If(left: Expr, rel: string, right: Expr, thenCmd: Cmd, elseCmd: Cmd)

  /** The commands of a program and whether a `;` stands in front of END. */
  datatype Program = Program(cmds: seq<Cmd>, trailing: bool)

  const Semicolon := Token(Punctuation, ";")
  const Comma := Token(Punctuation, ",")
  const Colon := Token(Punctuation, ":")

  function Kw(word: string): Token { Token(Keyword, word) }

  // ---------------------------------------------------------------------
  // Where a command stands in the tokens
  // ---------------------------------------------------------------------

  /** The number of tokens `n1 , n2 , ... , nk` takes. */
  function NamesWidth(names: seq<string>): nat {
    if names == [] then 0 else 2 * |names| - 1
  }

  /** `n1 , n2 , ... , nk` stands at p. */
  predicate NamesAt(toks: seq<Token>, p: nat, names: seq<string>) {
    names == [] || (Is(toks, p, Ide, names[0]) && CommaLabelsAt(toks, p + 1, names[1..]))
  }

  /** The number of tokens an operand, an expression and an operator chain take. */
  function OperandWidth(o: Operand): nat
    decreases o
  {
    match o
    case Leaf(_) => 1
    case Group(e) => 2 + ExprWidth(e)
  }

  function ExprWidth(e: Expr): nat
    decreases e
  {
    OperandWidth(e.head) + StepsWidth(e.tail)
  }

  function StepsWidth(steps: seq<Step>): nat
    decreases steps
  {
    if steps == [] then 0 else 1 + OperandWidth(steps[0].arg) + StepsWidth(steps[1..])
  }

  /** The operand o stands at p: its token, or `(` e `)`. */
  predicate OperandAt(toks: seq<Token>, p: nat, o: Operand)
    decreases o
  {
    match o
    case Leaf(t) => p < |toks| && toks[p] == t
    case Group(e) =>
      Is(toks, p, Punctuation, "(") && ExprAt(toks, p + 1, e) && Is(toks, p + 1 + ExprWidth(e), Punctuation, ")")
  }

  /** The expression e stands at p: its first operand, then its steps. */
  predicate ExprAt(toks: seq<Token>, p: nat, e: Expr)
    decreases e
  {
    OperandAt(toks, p, e.head) && StepsAt(toks, p + OperandWidth(e.head), e.tail)
  }

  /** The steps `op operand ...` stand at p. */
  predicate StepsAt(toks: seq<Token>, p: nat, steps: seq<Step>)
    decreases steps
  {
    if steps == [] then p <= |toks|
    else
      Is(toks, p, Operator, steps[0].op) && OperandAt(toks, p + 1, steps[0].arg)
      && StepsAt(toks, p + 1 + OperandWidth(steps[0].arg), steps[1..])
  }

  /** The number of tokens `, e1 , e2 ...` takes. */
  function CommaExprsWidth(es: seq<Expr>): nat {
    if es == [] then 0 else 1 + ExprWidth(es[0]) + CommaExprsWidth(es[1..])
  }

  /** `, e1 , e2 ...` stands at p. */
  predicate CommaExprsAt(toks: seq<Token>, p: nat, es: seq<Expr>)
    decreases es
  {
    es == [] ||
    (Is(toks, p, Punctuation, ",") && ExprAt(toks, p + 1, es[0])
     && CommaExprsAt(toks, p + 1 + ExprWidth(es[0]), es[1..]))
  }

  function ExprsWidth(es: seq<Expr>): nat {
    if es == [] then 0 else ExprWidth(es[0]) + CommaExprsWidth(es[1..])
  }

  /** `e1 , e2 , ...` stands at p. */
  predicate ExprsAt(toks: seq<Token>, p: nat, es: seq<Expr>) {
    es == [] || (ExprAt(toks, p, es[0]) && CommaExprsAt(toks, p + ExprWidth(es[0]), es[1..]))
  }

  /** The number of tokens a command takes. */
  function Width(c: Cmd): nat {
    match c
    case Labelled(_, b) => 2 + Width(b)
    case Let(_, e) => 3 + ExprWidth(e)
    case Jump(_) => 3
    case ComputedJump(_, ls) => 4 + NamesWidth(ls)
    case Read(ns) => 1 + NamesWidth(ns)
    case Print(es) => 1 + ExprsWidth(es)
    case If(a, _, b, c1, c2) => 4 + ExprWidth(a) + ExprWidth(b) + Width(c1) + Width(c2)
  }

  /** The command c is written in toks from p on: `label :` before its body,
      `LET x := e`, `GO TO l`, `GO TO n OF l1 , ...`, `READ x1 , ...`,
      `PRINT e1 , ...` or `IF e1 rel e2 THEN c1 ELSE c2`. */
  predicate CmdAt(toks: seq<Token>, p: nat, c: Cmd)
    decreases c
  {
    match c
    case Labelled(n, b) =>
      Is(toks, p, Ide, n) && Is(toks, p + 1, Punctuation, ":") && CmdAt(toks, p + 2, b)
    case Let(x, e) =>
      Is(toks, p, Keyword, "LET") && Is(toks, p + 1, Ide, x) && Is(toks, p + 2, Operator, ":=")
      && ExprAt(toks, p + 3, e)
    case Jump(l) =>
      Is(toks, p, Keyword, "GO") && Is(toks, p + 1, Keyword, "TO") && Is(toks, p + 2, Ide, l)
    case ComputedJump(n, ls) =>
      Is(toks, p, Keyword, "GO") && Is(toks, p + 1, Keyword, "TO") && Is(toks, p + 2, Num, n)
      && Is(toks, p + 3, Keyword, "OF") && NamesAt(toks, p + 4, ls)
    case Read(ns) =>
      Is(toks, p, Keyword, "READ") && NamesAt(toks, p + 1, ns)
    case Print(es) =>
      Is(toks, p, Keyword, "PRINT") && ExprsAt(toks, p + 1, es)
    case If(a, rel, b, c1, c2) =>
      var p2 := p + 1 + ExprWidth(a);
      var p4 := p2 + 1 + ExprWidth(b);
      var p6 := p4 + 1 + Width(c1);
      Is(toks, p, Keyword, "IF") && ExprAt(toks, p + 1, a)
      && Is(toks, p2, Operator, rel) && ExprAt(toks, p2 + 1, b)
      && Is(toks, p4, Keyword, "THEN") && CmdAt(toks, p4 + 1, c1)
      && Is(toks, p6, Keyword, "ELSE") && CmdAt(toks, p6 + 1, c2)
  }

  /** The commands separated by `;`, and a last `;` when `trailing`, from p on. */
  predicate SeqAt(toks: seq<Token>, p: nat, cmds: seq<Cmd>, trailing: bool)
    decreases |cmds|, 1
  {
    cmds == [] || (CmdAt(toks, p, cmds[0]) && RestAt(toks, p + Width(cmds[0]), cmds[1..], trailing))
  }

  /** What follows a command when `cmds` are still to come. */
  predicate RestAt(toks: seq<Token>, p: nat, cmds: seq<Cmd>, trailing: bool)
    decreases |cmds|, 2
  {
    if cmds == [] then (trailing ==> Is(toks, p, Punctuation, ";"))
    else Is(toks, p, Punctuation, ";") && SeqAt(toks, p + 1, cmds, trailing)
  }

  function SeqWidth(cmds: seq<Cmd>, trailing: bool): nat
    decreases |cmds|, 1
  {
    if cmds == [] then 0 else Width(cmds[0]) + RestWidth(cmds[1..], trailing)
  }

  function RestWidth(cmds: seq<Cmd>, trailing: bool): nat
    decreases |cmds|, 2
  {
    if cmds == [] then (if trailing then 1 else 0) else 1 + SeqWidth(cmds, trailing)
  }

  /** The token list is exactly the program p followed by END. */
  predicate Written(toks: seq<Token>, p: Program) {
    && SeqAt(toks, 0, p.cmds, p.trailing)
    && |toks| == SeqWidth(p.cmds, p.trailing) + 1
    && toks[|toks| - 1] == EndToken
  }

  // ---------------------------------------------------------------------
  // Well-formed programs
  // ---------------------------------------------------------------------

  /** The numeral of a computed jump fits an int and selects one of k labels. */
  predicate InRange(numeral: string, k: nat) {
    ParseInt(numeral).Some? && 1 <= ParseInt(numeral).value <= k
  }

  predicate ValidCmd(c: Cmd) {
    match c
    case Labelled(_, b) => ValidCmd(b)
    case Let(_, e) => ValidExpr(e)
    case Jump(_) => true
    case ComputedJump(n, ls) => |ls| >= 1 && InRange(n, |ls|)
    case Read(ns) => |ns| >= 1
    case Print(es) => |es| >= 1 && forall e :: e in es ==> ValidExpr(e)
    case If(a, rel, b, c1, c2) => ValidExpr(a) && IsRelOpSpelling(rel) && ValidExpr(b) && ValidCmd(c1) && ValidCmd(c2)
  }

  /** The labels a command defines, in the order the parse meets them. */
  function Labels(c: Cmd): seq<string> {
    match c
    case Labelled(n, b) => [n] + Labels(b)
    case If(_, _, _, c1, c2) => Labels(c1) + Labels(c2)
    case _ => []
  }

  function AllLabels(cmds: seq<Cmd>): seq<string> {
    if cmds == [] then [] else Labels(cmds[0]) + AllLabels(cmds[1..])
  }

  predicate NoDup(names: seq<string>) {
    forall i, j :: 0 <= i < j < |names| ==> names[i] != names[j]
  }

  /** None of the names is in the label set yet. */
  predicate Undefined(names: seq<string>, labels: set<string>) {
    forall l :: l in names ==> l !in labels
  }

  function LabelSet(names: seq<string>): set<string> {
    set l | l in names
  }

  /** A program whose commands are well formed, with no label defined twice;
      a `;` before END needs a command in front of it. */
  predicate ValidProgram(p: Program) {
    && (p.cmds == [] ==> !p.trailing)
    && (forall c :: c in p.cmds ==> ValidCmd(c))
    && NoDup(AllLabels(p.cmds))
  }

  // ---------------------------------------------------------------------
  // Helpers on label lists and single steps of the parse
  // ---------------------------------------------------------------------

  lemma {:induction false} NoDupConcat(a: seq<string>, b: seq<string>)
    ensures NoDup(a + b) <==> NoDup(a) && NoDup(b) && Undefined(a, LabelSet(b))
  {
    if NoDup(a + b) {
      forall i, j | 0 <= i < j < |a|
        ensures a[i] != a[j]
      {
        assert (a + b)[i] == a[i] && (a + b)[j] == a[j];
      }
      forall i, j | 0 <= i < j < |b|
        ensures b[i] != b[j]
      {
        assert (a + b)[|a| + i] == b[i] && (a + b)[|a| + j] == b[j];
      }
      forall l | l in a
        ensures l !in LabelSet(b)
      {
        var i :| 0 <= i < |a| && a[i] == l;
        forall j | 0 <= j < |b|
          ensures b[j] != l
        {
          assert (a + b)[i] == a[i] && (a + b)[|a| + j] == b[j];
        }
      }
    }
    if NoDup(a) && NoDup(b) && Undefined(a, LabelSet(b)) {
      forall i, j | 0 <= i < j < |a + b|
        ensures (a + b)[i] != (a + b)[j]
      {
        if j < |a| {
          assert (a + b)[i] == a[i] && (a + b)[j] == a[j];
        } else if i >= |a| {
          assert (a + b)[i] == b[i - |a|] && (a + b)[j] == b[j - |a|];
        } else {
          assert (a + b)[i] == a[i] && a[i] in a;
          assert (a + b)[j] == b[j - |a|] && b[j - |a|] in LabelSet(b);
        }
      }
    }
  }

  lemma {:induction false} LabelSetConcat(a: seq<string>, b: seq<string>)
    ensures LabelSet(a + b) == LabelSet(a) + LabelSet(b)
  {
  }

  lemma {:induction false} CommandDispatchesLet(toks: seq<Token>, st: State)
    requires !st.errorFound && Is(toks, st.pos, Keyword, "LET")
    ensures Command(toks, st) == LetRule(toks, st.(pos := st.pos + 1))
  {
  }

  lemma {:induction false} CommandDispatchesRead(toks: seq<Token>, st: State)
    requires !st.errorFound && Is(toks, st.pos, Keyword, "READ")
    ensures Command(toks, st) == ReadRule(toks, st.(pos := st.pos + 1))
  {
  }

  lemma {:induction false} CommandDispatchesPrint(toks: seq<Token>, st: State)
    requires !st.errorFound && Is(toks, st.pos, Keyword, "PRINT")
    ensures Command(toks, st) == PrintRule(toks, st.(pos := st.pos + 1))
  {
  }

  lemma {:induction false} CommandDispatchesIf(toks: seq<Token>, st: State)
    requires !st.errorFound && Is(toks, st.pos, Keyword, "IF")
    ensures Command(toks, st) == IfRule(toks, st.(pos := st.pos + 1))
  {
  }

  /** One round of the command sequence, after a command read without error. */
  lemma {:induction false} CommandSeqStep(toks: seq<Token>, st: State)
    requires st.pos < |toks| && !st.errorFound && !IsEnd(toks, st.pos)
    requires !Command(toks, st).errorFound
    ensures var s1 := Command(toks, st);
      CommandSeq(toks, st) ==
        if Is(toks, s1.pos, Punctuation, ";") then CommandSeq(toks, s1.(pos := s1.pos + 1))
        else if s1.pos < |toks| && !IsEnd(toks, s1.pos) then Report(s1, ExpectedSemicolonOrEnd)
        else s1
  {
  }

  /** A command starts with a label or a command keyword, never with END. */
  lemma {:induction false} FirstTokenNotEnd(toks: seq<Token>, p: nat, c: Cmd)
    requires CmdAt(toks, p, c)
    ensures p < |toks| && !IsEnd(toks, p)
  {
  }

  /** IF with a condition read without error goes on to the branches. */
  lemma {:induction false} IfRuleReads(toks: seq<Token>, s: State)
    requires s.pos <= |toks| && !s.errorFound
    requires !Expression(toks, s).errorFound && IsRelOp(toks, Expression(toks, s).pos)
    requires var s1 := Expression(toks, s); var s2 := Expression(toks, s1.(pos := s1.pos + 1));
      !s2.errorFound && Is(toks, s2.pos, Keyword, "THEN")
    ensures var s1 := Expression(toks, s); var s2 := Expression(toks, s1.(pos := s1.pos + 1));
      IfRule(toks, s) == ThenElse(toks, s2.(pos := s2.pos + 1))
  {
  }

  /** One token stands at p exactly when the cursor holds it. */
  lemma {:induction false} AtOne(toks: seq<Token>, p: nat, t: Token)
    ensures At(toks, p, [t]) <==> p < |toks| && toks[p] == t
  {
    if p < |toks| {
      assert toks[p..p + 1] == [toks[p]];
    }
  }

  /** Two segments stand one after the other exactly when their concatenation does. */
  lemma {:induction false} AtTwo(toks: seq<Token>, p: nat, a: seq<Token>, b: seq<Token>)
    ensures At(toks, p, a + b) <==> At(toks, p, a) && At(toks, p + |a|, b)
  {
    if At(toks, p, a + b) {
      AtSplit(toks, p, a, b);
    }
    if At(toks, p, a) && At(toks, p + |a|, b) {
      AtJoin(toks, p, a, b);
    }
  }

  /** Three segments stand one after the other exactly when their concatenation does. */
  lemma {:induction false} AtThree(toks: seq<Token>, p: nat, a: seq<Token>, b: seq<Token>, c: seq<Token>)
    ensures At(toks, p, a + b + c) <==> At(toks, p, a) && At(toks, p + |a|, b) && At(toks, p + |a| + |b|, c)
  {
    if At(toks, p, a + b + c) {
      AtSplit(toks, p, a + b, c);
      AtSplit(toks, p, a, b);
    }
    if At(toks, p, a) && At(toks, p + |a|, b) && At(toks, p + |a| + |b|, c) {
      AtJoin(toks, p, a, b);
      AtJoin(toks, p, a + b, c);
    }
  }

  /** The positional layout of an operand agrees with its written tokens. */
  lemma {:induction false} OperandLaid(toks: seq<Token>, p: nat, o: Operand)
    ensures OperandWidth(o) == |OperandTokens(o)|
    ensures OperandAt(toks, p, o) <==> At(toks, p, OperandTokens(o))
    decreases o
  {
    match o
    case Leaf(t) =>
      AtOne(toks, p, t);
    case Group(e) =>
      var open, close := Token(Punctuation, "("), Token(Punctuation, ")");
      var E := ExprTokens(e);
      ExprLaid(toks, p + 1, e);
      AtOne(toks, p, open);
      AtOne(toks, p + 1 + |E|, close);
      AtThree(toks, p, [open], E, [close]);
  }

  /** The positional layout of an expression agrees with its written tokens. */
  lemma {:induction false} ExprLaid(toks: seq<Token>, p: nat, e: Expr)
    ensures ExprWidth(e) == |ExprTokens(e)|
    ensures ExprAt(toks, p, e) <==> At(toks, p, ExprTokens(e))
    decreases e
  {
    var H := OperandTokens(e.head);
    OperandLaid(toks, p, e.head);
    StepsLaid(toks, p + |H|, e.tail);
    AtTwo(toks, p, H, StepTokens(e.tail));
  }

  /** The positional layout of an operator chain agrees with its written tokens. */
  lemma {:induction false} StepsLaid(toks: seq<Token>, p: nat, steps: seq<Step>)
    ensures StepsWidth(steps) == |StepTokens(steps)|
    ensures StepsAt(toks, p, steps) <==> At(toks, p, StepTokens(steps))
    decreases steps
  {
    if steps != [] {
      var op := Token(Operator, steps[0].op);
      var A := OperandTokens(steps[0].arg);
      OperandLaid(toks, p + 1, steps[0].arg);
      StepsLaid(toks, p + 1 + |A|, steps[1..]);
      AtOne(toks, p, op);
      AtThree(toks, p, [op], A, StepTokens(steps[1..]));
    } else {
      if p <= |toks| {
        assert toks[p..p] == [];
      }
    }
  }

  /** expression reads an expression laid out at the cursor. */
  lemma {:induction false} ExprReads(toks: seq<Token>, st: State, e: Expr, q: nat)
    requires st.pos <= |toks| && !st.errorFound && ValidExpr(e) && ExprAt(toks, st.pos, e)
    requires q == st.pos + ExprWidth(e) && !IsArith(toks, q)
    ensures Expression(toks, st) == st.(pos := q)
  {
    ExprLaid(toks, st.pos, e);
    ExpressionReadsExpr(toks, st, e, q);
  }

  /** What expression has read when it meets no error, as a layout. */
  lemma {:induction false} ExprAtOf(toks: seq<Token>, st: State) returns (e: Expr, q: nat)
    requires st.pos <= |toks| && !st.errorFound
    requires var r := Expression(toks, st); !r.errorFound && r.pos < |toks|
    ensures ValidExpr(e) && ExprAt(toks, st.pos, e) && q == st.pos + ExprWidth(e)
    ensures Expression(toks, st) == st.(pos := q) && !IsArith(toks, q)
  {
    e, q := ExprOf(toks, st);
    ExprLaid(toks, st.pos, e);
  }

  // ---------------------------------------------------------------------
  // Completeness: every well-formed program is accepted
  // ---------------------------------------------------------------------

  /** The tokens that follow a command in a program: `;`, END or ELSE. */
  predicate Terminator(toks: seq<Token>, q: nat) {
    q < |toks| && (toks[q] == Semicolon || toks[q] == EndToken || toks[q] == Kw("ELSE"))
  }

  /** A terminator neither continues an expression nor a list. */
  lemma {:induction false} TerminatorEndsLists(toks: seq<Token>, q: nat)
    requires Terminator(toks, q)
    ensures !IsArith(toks, q) && !Is(toks, q, Punctuation, ",")
  {
  }

  /** The READ loop reads `, n2 , ... , nk` in full. */
  lemma {:induction false} ReadTailReads(toks: seq<Token>, st: State, names: seq<string>)
    requires st.pos <= |toks| && !st.errorFound
    requires CommaLabelsAt(toks, st.pos, names) && !Is(toks, st.pos + 2 * |names|, Punctuation, ",")
    ensures ReadTail(toks, st) == st.(pos := st.pos + 2 * |names|)
    decreases names
  {
    if names != [] {
      ReadTailReads(toks, st.(pos := st.pos + 2), names[1..]);
    }
  }

  /** The PRINT loop reads `, e2 , ... , ek` in full when neither an operator
      nor a comma follows. */
  lemma {:induction false} PrintTailReads(toks: seq<Token>, st: State, es: seq<Expr>)
    requires st.pos <= |toks| && !st.errorFound && CommaExprsAt(toks, st.pos, es)
    requires forall e :: e in es ==> ValidExpr(e)
    requires var q := st.pos + CommaExprsWidth(es); !IsArith(toks, q) && !Is(toks, q, Punctuation, ",")
    ensures PrintTail(toks, st) == st.(pos := st.pos + CommaExprsWidth(es))
    decreases es
  {
    if es != [] {
      var e := es[0];
      var q1 := st.pos + 1 + ExprWidth(e);
      assert e in es;
      AfterListedExpr(toks, q1, es[1..]);
      ExprReads(toks, st.(pos := st.pos + 1), e, q1);
      assert forall x :: x in es[1..] ==> x in es;
      PrintTailReads(toks, st.(pos := q1), es[1..]);
      PrintTailStep(toks, st, ExprWidth(e), CommaExprsWidth(es[1..]));
    } else {
      PrintTailStops(toks, st);
    }
  }

  /** One round of the PRINT loop, from the results of its parts. */
  lemma {:induction false} PrintTailStep(toks: seq<Token>, st: State, w: nat, w2: nat)
    requires st.pos <= |toks| && !st.errorFound && Is(toks, st.pos, Punctuation, ",")
    requires Expression(toks, st.(pos := st.pos + 1)) == st.(pos := st.pos + 1 + w)
    requires PrintTail(toks, st.(pos := st.pos + 1 + w)) == st.(pos := st.pos + 1 + w + w2)
    ensures PrintTail(toks, st) == st.(pos := st.pos + 1 + w + w2)
  {
  }

  lemma {:induction false} PrintTailStops(toks: seq<Token>, st: State)
    requires st.pos <= |toks| && !Is(toks, st.pos, Punctuation, ",")
    ensures PrintTail(toks, st) == st
  {
  }

  /** In a PRINT list an expression is followed by a comma or by what
      follows the list. */
  lemma {:induction false} AfterListedExpr(toks: seq<Token>, q: nat, rest: seq<Expr>)
    requires CommaExprsAt(toks, q, rest) && !IsArith(toks, q + CommaExprsWidth(rest))
    ensures !IsArith(toks, q)
  {
  }

  /** READ, once consumed, reads its list of identifiers. */
  lemma {:induction false} ReadRuleReads(toks: seq<Token>, s: State, names: seq<string>)
    requires s.pos <= |toks| && !s.errorFound && |names| >= 1 && NamesAt(toks, s.pos, names)
    requires !Is(toks, s.pos + NamesWidth(names), Punctuation, ",")
    ensures ReadRule(toks, s) == s.(pos := s.pos + NamesWidth(names))
  {
    ReadTailReads(toks, s.(pos := s.pos + 1), names[1..]);
  }

  /** LET, once consumed, reads `x := e`. */
  lemma {:induction false} LetRuleReads(toks: seq<Token>, s: State, e: Expr)
    requires s.pos <= |toks| && !s.errorFound && IsCat(toks, s.pos, Ide) && Is(toks, s.pos + 1, Operator, ":=")
    requires ValidExpr(e) && ExprAt(toks, s.pos + 2, e) && !IsArith(toks, s.pos + 2 + ExprWidth(e))
    ensures LetRule(toks, s) == s.(pos := s.pos + 2 + ExprWidth(e))
  {
    ExprReads(toks, s.(pos := s.pos + 2), e, s.pos + 2 + ExprWidth(e));
    LetRuleAfterExpr(toks, s, ExprWidth(e));
  }

  lemma {:induction false} LetRuleAfterExpr(toks: seq<Token>, s: State, w: nat)
    requires s.pos <= |toks| && !s.errorFound && IsCat(toks, s.pos, Ide) && Is(toks, s.pos + 1, Operator, ":=")
    requires Expression(toks, s.(pos := s.pos + 2)) == s.(pos := s.pos + 2 + w)
    ensures LetRule(toks, s) == s.(pos := s.pos + 2 + w)
  {
  }

  /** PRINT, once consumed, reads its list of expressions. */
  lemma {:induction false} PrintRuleReads(toks: seq<Token>, s: State, es: seq<Expr>)
    requires s.pos <= |toks| && !s.errorFound && |es| >= 1
    requires (forall e :: e in es ==> ValidExpr(e)) && ExprsAt(toks, s.pos, es)
    requires var q := s.pos + ExprsWidth(es); !IsArith(toks, q) && !Is(toks, q, Punctuation, ",")
    ensures PrintRule(toks, s) == s.(pos := s.pos + ExprsWidth(es))
  {
    var q1 := s.pos + ExprWidth(es[0]);
    assert es[0] in es;
    AfterListedExpr(toks, q1, es[1..]);
    ExprReads(toks, s, es[0], q1);
    assert forall x :: x in es[1..] ==> x in es;
    PrintTailReads(toks, s.(pos := q1), es[1..]);
    PrintRuleAfter(toks, s, ExprWidth(es[0]), CommaExprsWidth(es[1..]));
  }

  lemma {:induction false} PrintRuleAfter(toks: seq<Token>, s: State, w: nat, w2: nat)
    requires s.pos <= |toks| && !s.errorFound
    requires Expression(toks, s) == s.(pos := s.pos + w)
    requires PrintTail(toks, s.(pos := s.pos + w)) == s.(pos := s.pos + w + w2)
    ensures PrintRule(toks, s) == s.(pos := s.pos + w + w2)
  {
  }

  /** IF, once consumed, reads the condition and THEN; p2 is where the
      relation stands and p4 where THEN stands. */
  lemma {:induction false} IfRuleLaid(toks: seq<Token>, s: State, a: Expr, rel: string, b: Expr, p2: nat, p4: nat)
    requires s.pos <= |toks| && !s.errorFound && ValidExpr(a) && ValidExpr(b) && IsRelOpSpelling(rel)
    requires ExprAt(toks, s.pos, a) && p2 == s.pos + ExprWidth(a) && Is(toks, p2, Operator, rel)
    requires ExprAt(toks, p2 + 1, b) && p4 == p2 + 1 + ExprWidth(b) && Is(toks, p4, Keyword, "THEN")
    ensures IfRule(toks, s) == ThenElse(toks, s.(pos := p4 + 1))
  {
    RelOpIsNotArith(toks, p2);
    ExprReads(toks, s, a, p2);
    var s2 := s.(pos := p2 + 1);
    ExprReads(toks, s2, b, p4);
    IfRuleAfterConds(toks, s, p2, s2, p4);
  }

  lemma {:induction false} IfRuleAfterConds(toks: seq<Token>, s: State, p2: nat, s2: State, p4: nat)
    requires s.pos <= |toks| && !s.errorFound
    requires Expression(toks, s) == s.(pos := p2) && IsRelOp(toks, p2) && s2 == s.(pos := p2 + 1)
    requires Expression(toks, s2) == s2.(pos := p4) && Is(toks, p4, Keyword, "THEN")
    ensures IfRule(toks, s) == ThenElse(toks, s.(pos := p4 + 1))
  {
    IfRuleReads(toks, s);
  }

  /** The branches of an IF are read in full and their labels recorded; p6 is
      where ELSE stands and q where the IF ends. */
  lemma {:induction false} ThenElseLaid(toks: seq<Token>, s: State, c: Cmd, p6: nat, q: nat)
    requires c.If? && s.pos <= |toks| && !s.errorFound && ValidCmd(c.thenCmd) && ValidCmd(c.elseCmd)
    requires CmdAt(toks, s.pos, c.thenCmd) && p6 == s.pos + Width(c.thenCmd) && Is(toks, p6, Keyword, "ELSE")
    requires CmdAt(toks, p6 + 1, c.elseCmd) && q == p6 + 1 + Width(c.elseCmd) && Terminator(toks, q)
    requires NoDup(Labels(c.thenCmd)) && Undefined(Labels(c.thenCmd), s.labels)
    requires NoDup(Labels(c.elseCmd)) && Undefined(Labels(c.elseCmd), s.labels + LabelSet(Labels(c.thenCmd)))
    ensures ThenElse(toks, s)
      == s.(pos := q, labels := s.labels + LabelSet(Labels(c.thenCmd)) + LabelSet(Labels(c.elseCmd)))
    decreases c, 1
  {
    var s3 := s.(pos := p6, labels := s.labels + LabelSet(Labels(c.thenCmd)));
    CommandReads(toks, s, c.thenCmd, p6);
    CommandReads(toks, s3.(pos := p6 + 1), c.elseCmd, q);
    ThenElseAfter(toks, s, s3, s3.(pos := q, labels := s3.labels + LabelSet(Labels(c.elseCmd))));
  }

  lemma {:induction false} ThenElseAfter(toks: seq<Token>, s: State, s3: State, r: State)
    requires s.pos <= |toks| && Command(toks, s) == s3 && !s3.errorFound && Is(toks, s3.pos, Keyword, "ELSE")
    requires Command(toks, s3.(pos := s3.pos + 1)) == r
    ensures ThenElse(toks, s) == r
  {
  }

  /** The labels of two branches, new and distinct together, are new one
      after the other. */
  lemma {:induction false} BranchLabels(labels: set<string>, L1: seq<string>, L2: seq<string>)
    requires NoDup(L1 + L2) && Undefined(L1 + L2, labels)
    ensures NoDup(L1) && Undefined(L1, labels) && NoDup(L2) && Undefined(L2, labels + LabelSet(L1))
    ensures labels + LabelSet(L1) + LabelSet(L2) == labels + LabelSet(L1 + L2)
  {
    NoDupConcat(L1, L2);
    LabelSetConcat(L1, L2);
    assert forall l :: l in L1 ==> l in L1 + L2;
    assert forall l :: l in L2 ==> l in L1 + L2;
  }

  /** Every well-formed command whose labels are new is read in full, up to
      the `;`, END or ELSE at q, and its labels are recorded. */
  lemma {:induction false} CommandReads(toks: seq<Token>, st: State, c: Cmd, q: nat)
    requires st.pos <= |toks| && !st.errorFound && ValidCmd(c) && CmdAt(toks, st.pos, c)
    requires q == st.pos + Width(c) && Terminator(toks, q)
    requires NoDup(Labels(c)) && Undefined(Labels(c), st.labels)
    ensures Command(toks, st) == st.(pos := q, labels := st.labels + LabelSet(Labels(c)))
    decreases c, 3
  {
    match c
    case Labelled(_, _) =>
      LabelledReads(toks, st, c, q);
    case Let(_, _) =>
      LetReads(toks, st, c);
    case Jump(_) =>
      CommandDispatchesGo(toks, st);
      assert LabelSet([]) == {};
    case ComputedJump(_, _) =>
      ComputedJumpReads(toks, st, c);
    case Read(_) =>
      ReadReads(toks, st, c);
    case Print(_) =>
      PrintReads(toks, st, c);
    case If(_, _, _, _, _) =>
      var p2, p4, p6 := IfLaidOut(toks, st.pos, c, q);
      IfReads(toks, st, c, p2, p4, p6, q);
  }

  lemma {:induction false} LabelledReads(toks: seq<Token>, st: State, c: Cmd, q: nat)
    requires c.Labelled? && st.pos <= |toks| && !st.errorFound && ValidCmd(c) && CmdAt(toks, st.pos, c)
    requires q == st.pos + Width(c) && Terminator(toks, q)
    requires NoDup(Labels(c)) && Undefined(Labels(c), st.labels)
    ensures Command(toks, st) == st.(pos := q, labels := st.labels + LabelSet(Labels(c)))
    decreases c, 2
  {
    var n, b := c.name, c.body;
    LabelledLabels(st.labels, n, b);
    LabelDefinitions(toks, st, n);
    CommandReads(toks, st.(labels := st.labels + {n}, pos := st.pos + 2), b, q);
  }

  /** The label of a labelled command is new, and so are its body's after it. */
  lemma {:induction false} LabelledLabels(labels: set<string>, n: string, b: Cmd)
    requires NoDup(Labels(Labelled(n, b))) && Undefined(Labels(Labelled(n, b)), labels)
    ensures n !in labels && NoDup(Labels(b)) && Undefined(Labels(b), labels + {n})
    ensures labels + {n} + LabelSet(Labels(b)) == labels + LabelSet(Labels(Labelled(n, b)))
  {
    assert Labels(Labelled(n, b)) == [n] + Labels(b);
    assert n in Labels(Labelled(n, b));
    NoDupConcat([n], Labels(b));
    LabelSetConcat([n], Labels(b));
    assert LabelSet([n]) == {n};
  }

  lemma {:induction false} LetReads(toks: seq<Token>, st: State, c: Cmd)
    requires c.Let? && st.pos <= |toks| && !st.errorFound && ValidCmd(c) && CmdAt(toks, st.pos, c)
    requires Terminator(toks, st.pos + Width(c))
    ensures Command(toks, st) == st.(pos := st.pos + Width(c), labels := st.labels + LabelSet(Labels(c)))
  {
    TerminatorEndsLists(toks, st.pos + Width(c));
    LetRuleReads(toks, st.(pos := st.pos + 1), c.value);
    CommandDispatchesLet(toks, st);
    assert LabelSet([]) == {};
  }

  lemma {:induction false} ComputedJumpReads(toks: seq<Token>, st: State, c: Cmd)
    requires c.ComputedJump? && st.pos <= |toks| && !st.errorFound && ValidCmd(c) && CmdAt(toks, st.pos, c)
    requires Terminator(toks, st.pos + Width(c))
    ensures Command(toks, st) == st.(pos := st.pos + Width(c), labels := st.labels + LabelSet(Labels(c)))
  {
    TerminatorEndsLists(toks, st.pos + Width(c));
    ComputedJumpChecksRange(toks, st, c.numeral, c.targets);
    assert LabelSet([]) == {};
  }

  lemma {:induction false} ReadReads(toks: seq<Token>, st: State, c: Cmd)
    requires c.Read? && st.pos <= |toks| && !st.errorFound && ValidCmd(c) && CmdAt(toks, st.pos, c)
    requires Terminator(toks, st.pos + Width(c))
    ensures Command(toks, st) == st.(pos := st.pos + Width(c), labels := st.labels + LabelSet(Labels(c)))
  {
    TerminatorEndsLists(toks, st.pos + Width(c));
    ReadRuleReads(toks, st.(pos := st.pos + 1), c.names);
    CommandDispatchesRead(toks, st);
    assert LabelSet([]) == {};
  }

  lemma {:induction false} PrintReads(toks: seq<Token>, st: State, c: Cmd)
    requires c.Print? && st.pos <= |toks| && !st.errorFound && ValidCmd(c) && CmdAt(toks, st.pos, c)
    requires Terminator(toks, st.pos + Width(c))
    ensures Command(toks, st) == st.(pos := st.pos + Width(c), labels := st.labels + LabelSet(Labels(c)))
  {
    TerminatorEndsLists(toks, st.pos + Width(c));
    PrintRuleReads(toks, st.(pos := st.pos + 1), c.values);
    CommandDispatchesPrint(toks, st);
    assert LabelSet([]) == {};
  }

  /** An IF laid out with its relation at p2, THEN at p4 and ELSE at p6. */
  lemma {:induction false} IfReads(toks: seq<Token>, st: State, c: Cmd, p2: nat, p4: nat, p6: nat, q: nat)
    requires c.If? && st.pos < |toks| && !st.errorFound && ValidCmd(c) && Is(toks, st.pos, Keyword, "IF")
    requires ExprAt(toks, st.pos + 1, c.left) && p2 == st.pos + 1 + ExprWidth(c.left) && Is(toks, p2, Operator, c.rel)
    requires ExprAt(toks, p2 + 1, c.right) && p4 == p2 + 1 + ExprWidth(c.right) && Is(toks, p4, Keyword, "THEN")
    requires CmdAt(toks, p4 + 1, c.thenCmd) && p6 == p4 + 1 + Width(c.thenCmd) && Is(toks, p6, Keyword, "ELSE")
    requires CmdAt(toks, p6 + 1, c.elseCmd) && q == p6 + 1 + Width(c.elseCmd) && Terminator(toks, q)
    requires NoDup(Labels(c)) && Undefined(Labels(c), st.labels)
    ensures Command(toks, st) == st.(pos := q, labels := st.labels + LabelSet(Labels(c)))
    decreases c, 2
  {
    var s := st.(pos := st.pos + 1);
    IfRuleLaid(toks, s, c.left, c.rel, c.right, p2, p4);
    BranchLabels(st.labels, Labels(c.thenCmd), Labels(c.elseCmd));
    ThenElseLaid(toks, st.(pos := p4 + 1), c, p6, q);
    CommandDispatchesIf(toks, st);
  }

  /** Where the parts of an IF stand, from where the IF stands: the relation
      at p2, THEN at p4 and ELSE at p6. */
  lemma {:induction false} IfLaidOut(toks: seq<Token>, p: nat, c: Cmd, q: nat) returns (p2: nat, p4: nat, p6: nat)
    requires c.If? && CmdAt(toks, p, c) && q == p + Width(c)
    ensures ExprAt(toks, p + 1, c.left) && p2 == p + 1 + ExprWidth(c.left) && Is(toks, p2, Operator, c.rel)
    ensures ExprAt(toks, p2 + 1, c.right) && p4 == p2 + 1 + ExprWidth(c.right) && Is(toks, p4, Keyword, "THEN")
    ensures CmdAt(toks, p4 + 1, c.thenCmd) && p6 == p4 + 1 + Width(c.thenCmd) && Is(toks, p6, Keyword, "ELSE")
    ensures CmdAt(toks, p6 + 1, c.elseCmd) && q == p6 + 1 + Width(c.elseCmd)
  {
    p2 := p + 1 + ExprWidth(c.left);
    p4 := p2 + 1 + ExprWidth(c.right);
    p6 := p4 + 1 + Width(c.thenCmd);
  }

  /** The command sequence reads the command at st and goes on after a `;` at q. */
  lemma {:induction false} SeqHeadReads(toks: seq<Token>, st: State, c: Cmd, q: nat)
    requires st.pos <= |toks| && !st.errorFound && ValidCmd(c) && CmdAt(toks, st.pos, c)
    requires q == st.pos + Width(c) && (Is(toks, q, Punctuation, ";") || IsEnd(toks, q))
    requires NoDup(Labels(c)) && Undefined(Labels(c), st.labels)
    ensures var r := st.(pos := q, labels := st.labels + LabelSet(Labels(c)));
      CommandSeq(toks, st) == if Is(toks, q, Punctuation, ";") then CommandSeq(toks, r.(pos := q + 1)) else r
  {
    FirstTokenNotEnd(toks, st.pos, c);
    CommandReads(toks, st, c, q);
    SeqStepAfter(toks, st, st.(pos := q, labels := st.labels + LabelSet(Labels(c))));
  }

  lemma {:induction false} SeqStepAfter(toks: seq<Token>, st: State, r: State)
    requires st.pos < |toks| && !st.errorFound && !IsEnd(toks, st.pos)
    requires Command(toks, st) == r && !r.errorFound && (Is(toks, r.pos, Punctuation, ";") || IsEnd(toks, r.pos))
    ensures CommandSeq(toks, st) == if Is(toks, r.pos, Punctuation, ";") then CommandSeq(toks, r.(pos := r.pos + 1)) else r
  {
    CommandSeqStep(toks, st);
  }

  /** The first command of a laid-out sequence, which ends at q, and what follows it. */
  lemma {:induction false} SeqSplit(toks: seq<Token>, p: nat, cmds: seq<Cmd>, trailing: bool, e: nat) returns (q: nat)
    requires cmds != [] && SeqAt(toks, p, cmds, trailing) && e == p + SeqWidth(cmds, trailing)
    ensures CmdAt(toks, p, cmds[0]) && q == p + Width(cmds[0])
    ensures |cmds| > 1 ==>
      Is(toks, q, Punctuation, ";") && SeqAt(toks, q + 1, cmds[1..], trailing)
      && e == q + 1 + SeqWidth(cmds[1..], trailing)
    ensures |cmds| == 1 ==> (if trailing then Is(toks, q, Punctuation, ";") && e == q + 1 else e == q)
  {
    q := p + Width(cmds[0]);
  }

  /** The labels of the first command are new, and so are those of the rest after it. */
  lemma {:induction false} SeqLabels(labels: set<string>, cmds: seq<Cmd>)
    requires cmds != [] && NoDup(AllLabels(cmds)) && Undefined(AllLabels(cmds), labels)
    ensures NoDup(Labels(cmds[0])) && Undefined(Labels(cmds[0]), labels)
    ensures NoDup(AllLabels(cmds[1..])) && Undefined(AllLabels(cmds[1..]), labels + LabelSet(Labels(cmds[0])))
    ensures labels + LabelSet(AllLabels(cmds)) == labels + LabelSet(Labels(cmds[0])) + LabelSet(AllLabels(cmds[1..]))
    ensures |cmds| == 1 ==> labels + LabelSet(AllLabels(cmds)) == labels + LabelSet(Labels(cmds[0]))
  {
    var L, R := Labels(cmds[0]), AllLabels(cmds[1..]);
    assert AllLabels(cmds) == L + R;
    NoDupConcat(L, R);
    LabelSetConcat(L, R);
    assert forall l :: l in L ==> l in L + R;
    assert forall l :: l in R ==> l in L + R;
    if |cmds| == 1 {
      assert R == [];
      assert LabelSet(R) == {};
    }
  }

  /** The command sequence reads commands separated by `;` up to END at e. */
  lemma {:induction false} SeqReads(toks: seq<Token>, st: State, cmds: seq<Cmd>, trailing: bool, e: nat)
    requires cmds != [] && (forall c :: c in cmds ==> ValidCmd(c))
    requires st.pos <= |toks| && !st.errorFound && SeqAt(toks, st.pos, cmds, trailing)
    requires e == st.pos + SeqWidth(cmds, trailing) && IsEnd(toks, e)
    requires NoDup(AllLabels(cmds)) && Undefined(AllLabels(cmds), st.labels)
    ensures CommandSeq(toks, st) == st.(pos := e, labels := st.labels + LabelSet(AllLabels(cmds)))
    decreases cmds, 1
  {
    var q := SeqSplit(toks, st.pos, cmds, trailing, e);
    SeqLabels(st.labels, cmds);
    assert cmds[0] in cmds;
    if |cmds| > 1 {
      SeqReadsMore(toks, st, cmds, trailing, e, q);
    } else {
      SeqReadsLast(toks, st, cmds[0], trailing, e, q);
    }
  }

  /** SeqReads on the last command, which ends at q, with or without `;` after it. */
  lemma {:induction false} SeqReadsLast(toks: seq<Token>, st: State, c: Cmd, trailing: bool, e: nat, q: nat)
    requires ValidCmd(c) && st.pos <= |toks| && !st.errorFound && CmdAt(toks, st.pos, c) && q == st.pos + Width(c)
    requires if trailing then Is(toks, q, Punctuation, ";") && e == q + 1 else e == q
    requires IsEnd(toks, e) && NoDup(Labels(c)) && Undefined(Labels(c), st.labels)
    ensures CommandSeq(toks, st) == st.(pos := e, labels := st.labels + LabelSet(Labels(c)))
  {
    if trailing {
      var r := st.(pos := q, labels := st.labels + LabelSet(Labels(c)));
      SeqHeadReads(toks, st, c, q);
      EndStopsSeq(toks, r.(pos := q + 1));
    } else {
      SeqHeadReads(toks, st, c, e);
    }
  }

  /** SeqReads when more commands follow the first one, which ends at q. */
  lemma {:induction false} SeqReadsMore(toks: seq<Token>, st: State, cmds: seq<Cmd>, trailing: bool, e: nat, q: nat)
    requires |cmds| > 1 && (forall c :: c in cmds ==> ValidCmd(c))
    requires st.pos <= |toks| && !st.errorFound && CmdAt(toks, st.pos, cmds[0]) && q == st.pos + Width(cmds[0])
    requires Is(toks, q, Punctuation, ";") && SeqAt(toks, q + 1, cmds[1..], trailing)
    requires e == q + 1 + SeqWidth(cmds[1..], trailing) && IsEnd(toks, e)
    requires NoDup(Labels(cmds[0])) && Undefined(Labels(cmds[0]), st.labels)
    requires NoDup(AllLabels(cmds[1..])) && Undefined(AllLabels(cmds[1..]), st.labels + LabelSet(Labels(cmds[0])))
    requires st.labels + LabelSet(AllLabels(cmds)) == st.labels + LabelSet(Labels(cmds[0])) + LabelSet(AllLabels(cmds[1..]))
    ensures CommandSeq(toks, st) == st.(pos := e, labels := st.labels + LabelSet(AllLabels(cmds)))
    decreases cmds, 0
  {
    var r := st.(pos := q, labels := st.labels + LabelSet(Labels(cmds[0])));
    assert cmds[0] in cmds;
    SeqHeadReads(toks, st, cmds[0], q);
    assert forall x :: x in cmds[1..] ==> x in cmds;
    SeqReads(toks, r.(pos := q + 1), cmds[1..], trailing, e);
  }

  /** The command sequence stops at END. */
  lemma {:induction false} EndStopsSeq(toks: seq<Token>, st: State)
    requires st.pos <= |toks| && IsEnd(toks, st.pos)
    ensures CommandSeq(toks, st) == st
  {
  }

  /** Every well-formed program is accepted, with the cursor after END and
      every label recorded; the lone END is accepted before the grammar runs. */
  lemma {:induction false} ProgramAccepted(toks: seq<Token>, p: Program)
    requires ValidProgram(p) && Written(toks, p)
    ensures ParseTokens(toks) == Verdict(true,
      if p.cmds == [] then Fresh else State(|toks|, LabelSet(AllLabels(p.cmds)), false, []))
  {
    if p.cmds == [] {
      assert toks == [EndToken];
    } else {
      FirstTokenNotEnd(toks, 0, p.cmds[0]);
      SeqReads(toks, Fresh, p.cmds, p.trailing, |toks| - 1);
      assert {} + LabelSet(AllLabels(p.cmds)) == LabelSet(AllLabels(p.cmds));
    }
  }

  lemma {:induction false} RelOpIsNotArith(toks: seq<Token>, p: nat)
    requires IsRelOp(toks, p)
    ensures !IsArith(toks, p)
  {
  }

  // ---------------------------------------------------------------------
  // Soundness: every accepted token list is a well-formed program
  // ---------------------------------------------------------------------

  /** The label-list loop of a computed jump reads `, n2 , ... , nk`. */
  lemma {:induction false} LabelTailOf(toks: seq<Token>, st: State, k: nat) returns (names: seq<string>)
    requires st.pos <= |toks| && !st.errorFound && !LabelTail(toks, st, k).0.errorFound
    ensures CommaLabelsAt(toks, st.pos, names)
    ensures LabelTail(toks, st, k) == (st.(pos := st.pos + 2 * |names|), k + |names|)
    decreases |toks| - st.pos
  {
    if Is(toks, st.pos, Punctuation, ",") {
      var rest := LabelTailOf(toks, st.(pos := st.pos + 2), k + 1);
      names := [toks[st.pos + 1].value] + rest;
      assert names[1..] == rest;
    } else {
      names := [];
    }
  }

  /** The READ loop reads `, n2 , ... , nk`. */
  lemma {:induction false} ReadTailOf(toks: seq<Token>, st: State) returns (names: seq<string>)
    requires st.pos <= |toks| && !st.errorFound && !ReadTail(toks, st).errorFound
    ensures CommaLabelsAt(toks, st.pos, names)
    ensures ReadTail(toks, st) == st.(pos := st.pos + 2 * |names|)
    decreases |toks| - st.pos
  {
    if Is(toks, st.pos, Punctuation, ",") {
      var rest := ReadTailOf(toks, st.(pos := st.pos + 2));
      names := [toks[st.pos + 1].value] + rest;
      assert names[1..] == rest;
    } else {
      names := [];
    }
  }

  /** The PRINT loop reads `, e2 , ... , ek` of well-formed expressions. */
  lemma {:induction false} PrintTailOf(toks: seq<Token>, st: State) returns (es: seq<Expr>, q: nat)
    requires st.pos <= |toks| && !st.errorFound
    requires var r := PrintTail(toks, st); !r.errorFound && r.pos < |toks|
    ensures (forall e :: e in es ==> ValidExpr(e)) && CommaExprsAt(toks, st.pos, es)
    ensures q == st.pos + CommaExprsWidth(es) && PrintTail(toks, st) == st.(pos := q)
    decreases |toks| - st.pos
  {
    if Is(toks, st.pos, Punctuation, ",") {
      var e, q1 := ExprAtOf(toks, st.(pos := st.pos + 1));
      var rest, q2 := PrintTailOf(toks, st.(pos := q1));
      es, q := [e] + rest, q2;
      assert es[0] == e && es[1..] == rest;
    } else {
      es, q := [], st.pos;
    }
  }

  /** LET, once consumed, has read `x := e` when it meets no error. */
  lemma {:induction false} LetRuleOf(toks: seq<Token>, s: State) returns (x: string, e: Expr, q: nat)
    requires s.pos <= |toks| && !s.errorFound
    requires var r := LetRule(toks, s); !r.errorFound && r.pos < |toks|
    ensures Is(toks, s.pos, Ide, x) && Is(toks, s.pos + 1, Operator, ":=")
    ensures ValidExpr(e) && ExprAt(toks, s.pos + 2, e) && q == s.pos + 2 + ExprWidth(e)
    ensures LetRule(toks, s) == s.(pos := q)
  {
    x := toks[s.pos].value;
    e, q := ExprAtOf(toks, s.(pos := s.pos + 2));
  }

  /** READ, once consumed, has read a list of identifiers when it meets no error. */
  lemma {:induction false} ReadRuleOf(toks: seq<Token>, s: State) returns (names: seq<string>, q: nat)
    requires s.pos <= |toks| && !s.errorFound && !ReadRule(toks, s).errorFound
    ensures |names| >= 1 && NamesAt(toks, s.pos, names) && q == s.pos + NamesWidth(names)
    ensures ReadRule(toks, s) == s.(pos := q)
  {
    var rest := ReadTailOf(toks, s.(pos := s.pos + 1));
    names := [toks[s.pos].value] + rest;
    assert names[1..] == rest;
    q := s.pos + 1 + 2 * |rest|;
  }

  /** PRINT, once consumed, has read a list of expressions when it meets no error. */
  lemma {:induction false} PrintRuleOf(toks: seq<Token>, s: State) returns (es: seq<Expr>, q: nat)
    requires s.pos <= |toks| && !s.errorFound
    requires var r := PrintRule(toks, s); !r.errorFound && r.pos < |toks|
    ensures |es| >= 1 && (forall e :: e in es ==> ValidExpr(e)) && ExprsAt(toks, s.pos, es)
    ensures q == s.pos + ExprsWidth(es) && PrintRule(toks, s) == s.(pos := q)
  {
    var e, q1 := ExprAtOf(toks, s);
    var rest, q2 := PrintTailOf(toks, s.(pos := q1));
    es, q := [e] + rest, q2;
    assert es[0] == e && es[1..] == rest;
  }

  /** GO, once consumed, has read `TO l` or `TO n OF l1 , ...` with n in
      range when it meets no error. */
  lemma {:induction false} GoRuleOf(toks: seq<Token>, s: State) returns (c: Cmd, q: nat)
    requires s.pos <= |toks| && !s.errorFound && !GoRule(toks, s).errorFound
    ensures Is(toks, s.pos, Keyword, "TO")
    ensures c.Jump? ==> Is(toks, s.pos + 1, Ide, c.target) && q == s.pos + 2
    ensures c.ComputedJump? ==>
      Is(toks, s.pos + 1, Num, c.numeral) && Is(toks, s.pos + 2, Keyword, "OF")
      && NamesAt(toks, s.pos + 3, c.targets) && q == s.pos + 3 + NamesWidth(c.targets)
    ensures (c.Jump? || c.ComputedJump?) && ValidCmd(c) && GoRule(toks, s) == s.(pos := q)
  {
    var p := s.pos + 1;
    if toks[p].category == Ide {
      c, q := Jump(toks[p].value), p + 1;
    } else {
      GoDispatchesComputed(toks, s);
      var s1 := s.(pos := p + 1);
      var rest := LabelTailOf(toks, s.(pos := s.pos + 4), 1);
      var s2 := s.(pos := s.pos + 4 + 2 * |rest|);
      ComputedGoAfterList(toks, s1, toks[p].value, s2, 1 + |rest|);
      c := ComputedJump(toks[p].value, [toks[s.pos + 3].value] + rest);
      assert c.targets[1..] == rest;
      q := s2.pos;
    }
  }

  /** The layouts the rules read are the layouts of the commands. */
  lemma {:induction false} LetLaidIn(toks: seq<Token>, p: nat, sp: nat, x: string, e: Expr, q: nat)
    requires sp == p + 1 && Is(toks, p, Keyword, "LET") && Is(toks, sp, Ide, x) && Is(toks, sp + 1, Operator, ":=")
    requires ExprAt(toks, sp + 2, e) && q == sp + 2 + ExprWidth(e)
    ensures CmdAt(toks, p, Let(x, e)) && q == p + Width(Let(x, e))
  {
  }

  lemma {:induction false} ReadLaidIn(toks: seq<Token>, p: nat, sp: nat, names: seq<string>, q: nat)
    requires sp == p + 1 && Is(toks, p, Keyword, "READ") && NamesAt(toks, sp, names) && q == sp + NamesWidth(names)
    ensures CmdAt(toks, p, Read(names)) && q == p + Width(Read(names))
  {
  }

  lemma {:induction false} PrintLaidIn(toks: seq<Token>, p: nat, sp: nat, es: seq<Expr>, q: nat)
    requires sp == p + 1 && Is(toks, p, Keyword, "PRINT") && ExprsAt(toks, sp, es) && q == sp + ExprsWidth(es)
    ensures CmdAt(toks, p, Print(es)) && q == p + Width(Print(es))
  {
  }

  lemma {:induction false} GoLaidIn(toks: seq<Token>, p: nat, sp: nat, c: Cmd, q: nat)
    requires sp == p + 1 && Is(toks, p, Keyword, "GO") && Is(toks, sp, Keyword, "TO")
    requires c.Jump? ==> Is(toks, sp + 1, Ide, c.target) && q == sp + 2
    requires c.ComputedJump? ==>
      Is(toks, sp + 1, Num, c.numeral) && Is(toks, sp + 2, Keyword, "OF")
      && NamesAt(toks, sp + 3, c.targets) && q == sp + 3 + NamesWidth(c.targets)
    requires c.Jump? || c.ComputedJump?
    ensures CmdAt(toks, p, c) && q == p + Width(c)
  {
  }

  /** A command without labels leaves the label set as it was. */
  lemma {:induction false} NoLabels(labels: set<string>, c: Cmd)
    requires !c.Labelled? && !c.If?
    ensures NoDup(Labels(c)) && Undefined(Labels(c), labels) && labels + LabelSet(Labels(c)) == labels
  {
    assert Labels(c) == [];
    assert LabelSet([]) == {};
  }

  /** A labelled command's labels are new exactly when its label is new and
      its body's labels are new after it. */
  lemma {:induction false} LabelledLabelsOf(labels: set<string>, n: string, b: Cmd)
    requires n !in labels && NoDup(Labels(b)) && Undefined(Labels(b), labels + {n})
    ensures NoDup(Labels(Labelled(n, b))) && Undefined(Labels(Labelled(n, b)), labels)
    ensures labels + {n} + LabelSet(Labels(b)) == labels + LabelSet(Labels(Labelled(n, b)))
  {
    assert Labels(Labelled(n, b)) == [n] + Labels(b);
    NoDupConcat([n], Labels(b));
    LabelSetConcat([n], Labels(b));
    assert LabelSet([n]) == {n};
  }

  /** The labels of two branches read one after the other. */
  lemma {:induction false} BranchLabelsOf(labels: set<string>, L1: seq<string>, L2: seq<string>)
    requires NoDup(L1) && Undefined(L1, labels) && NoDup(L2) && Undefined(L2, labels + LabelSet(L1))
    ensures NoDup(L1 + L2) && Undefined(L1 + L2, labels)
    ensures labels + LabelSet(L1) + LabelSet(L2) == labels + LabelSet(L1 + L2)
  {
    NoDupConcat(L1, L2);
    LabelSetConcat(L1, L2);
  }

  /** Soundness of command: when it meets no error and stops before the end
      of the tokens, it has read a well-formed command, ending at q, whose
      labels were new. */
  lemma {:induction false} CmdOf(toks: seq<Token>, st: State) returns (c: Cmd, q: nat)
    requires st.pos <= |toks| && !st.errorFound
    requires var r := Command(toks, st); !r.errorFound && r.pos < |toks|
    ensures ValidCmd(c) && CmdAt(toks, st.pos, c) && q == st.pos + Width(c)
    ensures NoDup(Labels(c)) && Undefined(Labels(c), st.labels)
    ensures Command(toks, st) == st.(pos := q, labels := st.labels + LabelSet(Labels(c)))
    decreases |toks| - st.pos, 2
  {
    var t := toks[st.pos];
    if t.category == Ide && Is(toks, st.pos + 1, Punctuation, ":") {
      c, q := LabelledOf(toks, st);
    } else if t == Kw("IF") {
      c, q := IfOf(toks, st);
    } else {
      c, q := SimpleOf(toks, st);
    }
  }

  /** The commands without a body: LET, GO, READ and PRINT. */
  lemma {:induction false} SimpleOf(toks: seq<Token>, st: State) returns (c: Cmd, q: nat)
    requires st.pos < |toks| && !st.errorFound && toks[st.pos] != Kw("IF")
    requires !(toks[st.pos].category == Ide && Is(toks, st.pos + 1, Punctuation, ":"))
    requires var r := Command(toks, st); !r.errorFound && r.pos < |toks|
    ensures ValidCmd(c) && CmdAt(toks, st.pos, c) && q == st.pos + Width(c)
    ensures NoDup(Labels(c)) && Undefined(Labels(c), st.labels)
    ensures Command(toks, st) == st.(pos := q, labels := st.labels + LabelSet(Labels(c)))
  {
    var t := toks[st.pos];
    var s := st.(pos := st.pos + 1);
    if t == Kw("LET") {
      CommandDispatchesLet(toks, st);
      var x, e, q1 := LetRuleOf(toks, s);
      LetLaidIn(toks, st.pos, s.pos, x, e, q1);
      c, q := Let(x, e), q1;
    } else if t == Kw("GO") {
      CommandDispatchesGo(toks, st);
      var c1, q1 := GoRuleOf(toks, s);
      GoLaidIn(toks, st.pos, s.pos, c1, q1);
      c, q := c1, q1;
    } else if t == Kw("READ") {
      CommandDispatchesRead(toks, st);
      var names, q1 := ReadRuleOf(toks, s);
      ReadLaidIn(toks, st.pos, s.pos, names, q1);
      c, q := Read(names), q1;
    } else if t == Kw("PRINT") {
      CommandDispatchesPrint(toks, st);
      var es, q1 := PrintRuleOf(toks, s);
      PrintLaidIn(toks, st.pos, s.pos, es, q1);
      c, q := Print(es), q1;
    } else {
      assert false;
    }
    NoLabels(st.labels, c);
  }

  lemma {:induction false} LabelledOf(toks: seq<Token>, st: State) returns (c: Cmd, q: nat)
    requires st.pos < |toks| && !st.errorFound
    requires toks[st.pos].category == Ide && Is(toks, st.pos + 1, Punctuation, ":")
    requires var r := Command(toks, st); !r.errorFound && r.pos < |toks|
    ensures ValidCmd(c) && CmdAt(toks, st.pos, c) && q == st.pos + Width(c)
    ensures NoDup(Labels(c)) && Undefined(Labels(c), st.labels)
    ensures Command(toks, st) == st.(pos := q, labels := st.labels + LabelSet(Labels(c)))
    decreases |toks| - st.pos, 1
  {
    var n := toks[st.pos].value;
    LabelDefinitions(toks, st, n);
    var b, q1 := CmdOf(toks, st.(labels := st.labels + {n}, pos := st.pos + 2));
    c, q := Labelled(n, b), q1;
    LabelledLabelsOf(st.labels, n, b);
  }

  /** IF, once consumed, has read the condition and THEN when it meets no
      error: the relation at p2 and THEN at p4. */
  lemma {:induction false} IfRuleOf(toks: seq<Token>, s: State) returns (a: Expr, rel: string, b: Expr, p2: nat, p4: nat)
    requires s.pos <= |toks| && !s.errorFound
    requires var r := IfRule(toks, s); !r.errorFound && r.pos < |toks|
    ensures ValidExpr(a) && ExprAt(toks, s.pos, a) && p2 == s.pos + ExprWidth(a)
    ensures IsRelOpSpelling(rel) && Is(toks, p2, Operator, rel)
    ensures ValidExpr(b) && ExprAt(toks, p2 + 1, b) && p4 == p2 + 1 + ExprWidth(b) && Is(toks, p4, Keyword, "THEN")
    ensures IfRule(toks, s) == ThenElse(toks, s.(pos := p4 + 1))
  {
    IfRuleSteps(toks, s);
    a, p2 := ExprAtOf(toks, s);
    rel := toks[p2].value;
    b, p4 := ExprAtOf(toks, s.(pos := p2 + 1));
  }

  /** What an IF that meets no error has read before its branches. */
  lemma {:induction false} IfRuleSteps(toks: seq<Token>, s: State)
    requires s.pos <= |toks| && !s.errorFound && !IfRule(toks, s).errorFound
    ensures !Expression(toks, s).errorFound && IsRelOp(toks, Expression(toks, s).pos)
    ensures var s1 := Expression(toks, s); var s2 := Expression(toks, s1.(pos := s1.pos + 1));
      !s2.errorFound && Is(toks, s2.pos, Keyword, "THEN") && IfRule(toks, s) == ThenElse(toks, s2.(pos := s2.pos + 1))
  {
  }

  /** What the branches that meet no error have read up to ELSE at p6. */
  lemma {:induction false} ThenElseSplit(toks: seq<Token>, s: State, s3: State, p6: nat)
    requires s.pos <= |toks| && !ThenElse(toks, s).errorFound && Command(toks, s) == s3 && s3.pos == p6
    ensures !s3.errorFound && Is(toks, p6, Keyword, "ELSE")
    ensures ThenElse(toks, s) == Command(toks, s3.(pos := p6 + 1))
  {
  }

  /** The branches of an IF that meet no error: ELSE at p6 and the end at q. */
  lemma {:induction false} ThenElseOf(toks: seq<Token>, s: State) returns (c1: Cmd, c2: Cmd, p6: nat, q: nat)
    requires s.pos <= |toks| && !s.errorFound
    requires var r := ThenElse(toks, s); !r.errorFound && r.pos < |toks|
    ensures ValidCmd(c1) && CmdAt(toks, s.pos, c1) && p6 == s.pos + Width(c1) && Is(toks, p6, Keyword, "ELSE")
    ensures ValidCmd(c2) && CmdAt(toks, p6 + 1, c2) && q == p6 + 1 + Width(c2)
    ensures NoDup(Labels(c1) + Labels(c2)) && Undefined(Labels(c1) + Labels(c2), s.labels)
    ensures ThenElse(toks, s) == s.(pos := q, labels := s.labels + LabelSet(Labels(c1) + Labels(c2)))
    decreases |toks| - s.pos, 3
  {
    var s3 := Command(toks, s);
    assert !s3.errorFound && s3.pos < |toks| by {
      ThenElseSplit(toks, s, s3, s3.pos);
    }
    c1, p6 := CmdOf(toks, s);
    var r3 := s.(pos := p6, labels := s.labels + LabelSet(Labels(c1)));
    ThenElseSplit(toks, s, r3, p6);
    c2, q := CmdOf(toks, r3.(pos := p6 + 1));
    BranchLabelsOf(s.labels, Labels(c1), Labels(c2));
  }

  lemma {:induction false} IfLaidIn(toks: seq<Token>, p: nat, sp: nat, a: Expr, rel: string, b: Expr, c1: Cmd, c2: Cmd,
                                    p2: nat, p4: nat, tp: nat, p6: nat, q: nat)
    requires sp == p + 1 && Is(toks, p, Keyword, "IF")
    requires ExprAt(toks, sp, a) && p2 == sp + ExprWidth(a) && Is(toks, p2, Operator, rel)
    requires ExprAt(toks, p2 + 1, b) && p4 == p2 + 1 + ExprWidth(b) && Is(toks, p4, Keyword, "THEN")
    requires tp == p4 + 1 && CmdAt(toks, tp, c1) && p6 == tp + Width(c1) && Is(toks, p6, Keyword, "ELSE")
    requires CmdAt(toks, p6 + 1, c2) && q == p6 + 1 + Width(c2)
    ensures CmdAt(toks, p, If(a, rel, b, c1, c2)) && q == p + Width(If(a, rel, b, c1, c2))
  {
  }

  lemma {:induction false} IfOf(toks: seq<Token>, st: State) returns (c: Cmd, q: nat)
    requires st.pos < |toks| && !st.errorFound && toks[st.pos] == Kw("IF")
    requires var r := Command(toks, st); !r.errorFound && r.pos < |toks|
    ensures ValidCmd(c) && CmdAt(toks, st.pos, c) && q == st.pos + Width(c)
    ensures NoDup(Labels(c)) && Undefined(Labels(c), st.labels)
    ensures Command(toks, st) == st.(pos := q, labels := st.labels + LabelSet(Labels(c)))
    decreases |toks| - st.pos, 1
  {
    var s := st.(pos := st.pos + 1);
    CommandDispatchesIf(toks, st);
    var a, rel, b, p2, p4 := IfRuleOf(toks, s);
    var t := s.(pos := p4 + 1);
    var c1, c2, p6, q1 := ThenElseOf(toks, t);
    IfLaidIn(toks, st.pos, s.pos, a, rel, b, c1, c2, p2, p4, t.pos, p6, q1);
    c, q := If(a, rel, b, c1, c2), q1;
  }

  /** One round of the command sequence when the whole sequence ends without
      error in front of END: the command meets no error and stops in front of
      `;` or END. */
  lemma {:induction false} SeqStepOf(toks: seq<Token>, st: State)
    requires st.pos <= |toks| && !st.errorFound && !IsEnd(toks, st.pos)
    requires var r := CommandSeq(toks, st); !r.errorFound && IsEnd(toks, r.pos)
    ensures st.pos < |toks|
    ensures var s1 := Command(toks, st);
      && !s1.errorFound && s1.pos < |toks|
      && (Is(toks, s1.pos, Punctuation, ";") || IsEnd(toks, s1.pos))
  {
  }

  /** The command sequence goes on after a command and its `;`. */
  lemma {:induction false} SeqGoesOn(toks: seq<Token>, st: State, r: State, q: nat, r2: State)
    requires st.pos < |toks| && !st.errorFound && !IsEnd(toks, st.pos)
    requires Command(toks, st) == r && !r.errorFound && r.pos == q && Is(toks, q, Punctuation, ";")
    requires CommandSeq(toks, r.(pos := q + 1)) == r2
    ensures CommandSeq(toks, st) == r2
  {
    CommandSeqStep(toks, st);
  }

  /** The command sequence stops after a command in front of END. */
  lemma {:induction false} SeqStops(toks: seq<Token>, st: State, r: State)
    requires st.pos < |toks| && !st.errorFound && !IsEnd(toks, st.pos)
    requires Command(toks, st) == r && !r.errorFound && IsEnd(toks, r.pos)
    ensures CommandSeq(toks, st) == r
  {
    CommandSeqStep(toks, st);
  }

  /** A command followed by `;` and more commands is laid out as a sequence. */
  lemma {:induction false} SeqJoin(toks: seq<Token>, p: nat, c: Cmd, q: nat, rest: seq<Cmd>, trailing: bool)
    requires CmdAt(toks, p, c) && q == p + Width(c) && Is(toks, q, Punctuation, ";")
    requires rest != [] && SeqAt(toks, q + 1, rest, trailing)
    ensures SeqAt(toks, p, [c] + rest, trailing)
    ensures p + SeqWidth([c] + rest, trailing) == q + 1 + SeqWidth(rest, trailing)
  {
    assert ([c] + rest)[0] == c && ([c] + rest)[1..] == rest;
  }

  /** A last command, with or without a `;` after it. */
  lemma {:induction false} SeqLast(toks: seq<Token>, p: nat, c: Cmd, q: nat, trailing: bool)
    requires CmdAt(toks, p, c) && q == p + Width(c) && (trailing ==> Is(toks, q, Punctuation, ";"))
    ensures SeqAt(toks, p, [c], trailing)
    ensures p + SeqWidth([c], trailing) == q + (if trailing then 1 else 0)
  {
    assert [c][1..] == [];
  }

  /** The labels of a command and of the commands after it. */
  lemma {:induction false} SeqLabelsOf(labels: set<string>, c: Cmd, rest: seq<Cmd>)
    requires NoDup(Labels(c)) && Undefined(Labels(c), labels)
    requires NoDup(AllLabels(rest)) && Undefined(AllLabels(rest), labels + LabelSet(Labels(c)))
    ensures NoDup(AllLabels([c] + rest)) && Undefined(AllLabels([c] + rest), labels)
    ensures labels + LabelSet(Labels(c)) + LabelSet(AllLabels(rest)) == labels + LabelSet(AllLabels([c] + rest))
  {
    assert ([c] + rest)[0] == c && ([c] + rest)[1..] == rest;
    assert AllLabels([c] + rest) == Labels(c) + AllLabels(rest);
    BranchLabelsOf(labels, Labels(c), AllLabels(rest));
  }

  /** Soundness of the command sequence: when it ends without error in front
      of END at e, it has read well-formed commands separated by `;`,
      possibly with a last `;`, and defined no label twice. */
  lemma {:induction false} SeqOf(toks: seq<Token>, st: State) returns (cmds: seq<Cmd>, trailing: bool, e: nat)
    requires st.pos <= |toks| && !st.errorFound
    requires var r := CommandSeq(toks, st); !r.errorFound && IsEnd(toks, r.pos)
    ensures (cmds == [] ==> !trailing) && (forall c :: c in cmds ==> ValidCmd(c))
    ensures SeqAt(toks, st.pos, cmds, trailing) && e == st.pos + SeqWidth(cmds, trailing)
    ensures NoDup(AllLabels(cmds)) && Undefined(AllLabels(cmds), st.labels)
    ensures CommandSeq(toks, st) == st.(pos := e, labels := st.labels + LabelSet(AllLabels(cmds)))
    decreases |toks| - st.pos, 1
  {
    if IsEnd(toks, st.pos) {
      cmds, trailing, e := [], false, st.pos;
      assert AllLabels([]) == [] && LabelSet([]) == {};
    } else {
      SeqStepOf(toks, st);
      var c, q := CmdOf(toks, st);
      if Is(toks, q, Punctuation, ";") && !IsEnd(toks, q + 1) {
        cmds, trailing, e := SeqMoreOf(toks, st, c, q);
      } else {
        cmds, trailing, e := SeqLastOf(toks, st, c, q);
      }
    }
  }

  /** The command at st is the last one, with or without a `;` after it. */
  lemma {:induction false} SeqLastOf(toks: seq<Token>, st: State, c: Cmd, q: nat) returns (cmds: seq<Cmd>, trailing: bool, e: nat)
    requires st.pos < |toks| && !st.errorFound && !IsEnd(toks, st.pos)
    requires ValidCmd(c) && CmdAt(toks, st.pos, c) && q == st.pos + Width(c)
    requires NoDup(Labels(c)) && Undefined(Labels(c), st.labels)
    requires Command(toks, st) == st.(pos := q, labels := st.labels + LabelSet(Labels(c)))
    requires (Is(toks, q, Punctuation, ";") && IsEnd(toks, q + 1)) || IsEnd(toks, q)
    ensures (cmds == [] ==> !trailing) && (forall c :: c in cmds ==> ValidCmd(c))
    ensures SeqAt(toks, st.pos, cmds, trailing) && e == st.pos + SeqWidth(cmds, trailing)
    ensures NoDup(AllLabels(cmds)) && Undefined(AllLabels(cmds), st.labels)
    ensures CommandSeq(toks, st) == st.(pos := e, labels := st.labels + LabelSet(AllLabels(cmds)))
  {
    var r := st.(pos := q, labels := st.labels + LabelSet(Labels(c)));
    SeqLabelsOf(st.labels, c, []);
    assert [c] + [] == [c];
    if Is(toks, q, Punctuation, ";") {
      EndStopsSeq(toks, r.(pos := q + 1));
      SeqGoesOn(toks, st, r, q, r.(pos := q + 1));
      SeqLast(toks, st.pos, c, q, true);
      cmds, trailing, e := [c], true, q + 1;
    } else {
      SeqStops(toks, st, r);
      SeqLast(toks, st.pos, c, q, false);
      cmds, trailing, e := [c], false, q;
    }
  }

  /** The command at st is followed by `;` and more commands. */
  lemma {:induction false} SeqMoreOf(toks: seq<Token>, st: State, c: Cmd, q: nat) returns (cmds: seq<Cmd>, trailing: bool, e: nat)
    requires st.pos < |toks| && !st.errorFound && !IsEnd(toks, st.pos)
    requires ValidCmd(c) && CmdAt(toks, st.pos, c) && q == st.pos + Width(c)
    requires NoDup(Labels(c)) && Undefined(Labels(c), st.labels)
    requires Command(toks, st) == st.(pos := q, labels := st.labels + LabelSet(Labels(c)))
    requires Is(toks, q, Punctuation, ";") && !IsEnd(toks, q + 1)
    requires var r := CommandSeq(toks, st); !r.errorFound && IsEnd(toks, r.pos)
    ensures (cmds == [] ==> !trailing) && (forall c :: c in cmds ==> ValidCmd(c))
    ensures SeqAt(toks, st.pos, cmds, trailing) && e == st.pos + SeqWidth(cmds, trailing)
    ensures NoDup(AllLabels(cmds)) && Undefined(AllLabels(cmds), st.labels)
    ensures CommandSeq(toks, st) == st.(pos := e, labels := st.labels + LabelSet(AllLabels(cmds)))
    decreases |toks| - st.pos, 0
  {
    var r := st.(pos := q, labels := st.labels + LabelSet(Labels(c)));
    var r1 := r.(pos := q + 1);
    assert CommandSeq(toks, st) == CommandSeq(toks, r1) by {
      SeqGoesOn(toks, st, r, q, CommandSeq(toks, r1));
    }
    var rest, tr, e1 := SeqOf(toks, r1);
    SeqGoesOn(toks, st, r, q, r1.(pos := e1, labels := r1.labels + LabelSet(AllLabels(rest))));
    SeqJoin(toks, st.pos, c, q, rest, tr);
    SeqLabelsOf(st.labels, c, rest);
    cmds, trailing, e := [c] + rest, tr, e1;
    assert forall x :: x in cmds ==> x == c || x in rest;
  }

  /** Every token list the parse accepts is the written form of a
      well-formed program. */
  lemma {:induction false} AcceptedIsProgram(toks: seq<Token>) returns (p: Program)
    requires ParseTokens(toks).accepted
    ensures ValidProgram(p) && Written(toks, p)
  {
    if toks == [EndToken] {
      p := Program([], false);
    } else {
      var cmds, trailing, e := SeqOf(toks, Fresh);
      p := Program(cmds, trailing);
    }
  }

  /** The parse of Main.java accepts a token list exactly when it is the
      written form of a well-formed program. */
  lemma {:induction false} AcceptsExactlyPrograms(toks: seq<Token>)
    ensures ParseTokens(toks).accepted <==> exists p :: ValidProgram(p) && Written(toks, p)
  {
    if ParseTokens(toks).accepted {
      var p := AcceptedIsProgram(toks);
    }
    if exists p :: ValidProgram(p) && Written(toks, p) {
      var p :| ValidProgram(p) && Written(toks, p);
      ProgramAccepted(toks, p);
    }
  }

  // ---------------------------------------------------------------------
  // Example inputs
  // ---------------------------------------------------------------------

  const A := Token(Ide, "A")
  const One := Token(Num, "1")
  const Two := Token(Num, "2")
  const Plus := Token(Operator, "+")

  /** `END` alone, and `LET A := 1 + 2; PRINT A; END`, are accepted; the
      cursor ends after END and no label is defined. */
  lemma {:induction false} ExamplesAccepted()
    ensures ParseTokens([EndToken]) == Verdict(true, Fresh)
    ensures ParseTokens([Kw("LET"), A, Token(Operator, ":="), One, Plus, Two, Semicolon,
                         Kw("PRINT"), A, Semicolon, EndToken])
         == Verdict(true, State(11, {}, false, []))
  {
    var toks := [Kw("LET"), A, Token(Operator, ":="), One, Plus, Two, Semicolon,
                 Kw("PRINT"), A, Semicolon, EndToken];
    var s6 := State(6, {}, false, []);
    var s9 := State(9, {}, false, []);
    assert Command(toks, Fresh) == s6 by {
      assert ExprTail(toks, s6) == s6;
      assert ExprTail(toks, State(4, {}, false, [])) == ExprTail(toks, Factor(toks, State(5, {}, false, []))) == s6;
      assert Expression(toks, State(3, {}, false, [])) == ExprTail(toks, State(4, {}, false, []));
      assert Command(toks, Fresh) == LetRule(toks, State(1, {}, false, []));
    }
    assert Command(toks, State(7, {}, false, [])) == s9 by {
      assert Expression(toks, State(8, {}, false, [])) == ExprTail(toks, s9) == s9;
      assert Command(toks, State(7, {}, false, [])) == PrintRule(toks, State(8, {}, false, []));
    }
    assert CommandSeq(toks, Fresh) == CommandSeq(toks, State(7, {}, false, []))
        == CommandSeq(toks, State(10, {}, false, [])) == State(10, {}, false, []);
  }

  /** `LET A = 1; END` is rejected: `:=` is missing after the identifier. */
  lemma {:induction false} ExampleMissingAssign()
    ensures ParseTokens([Kw("LET"), A, Token(Operator, "="), One, Semicolon, EndToken])
         == Verdict(false, State(2, {}, true, [Diag(ExpectedAssign, 2)]))
  {
  }

  /** `GO TO 3 OF L1, L2; END` is rejected: 3 selects none of two labels. */
  lemma {:induction false} ExampleJumpOutOfRange()
    ensures ParseTokens([Kw("GO"), Kw("TO"), Token(Num, "3"), Kw("OF"), Token(Ide, "L1"), Comma,
                         Token(Ide, "L2"), Semicolon, EndToken])
         == Verdict(false, State(7, {}, true, [Diag(JumpIndexOutOfRange(3, 2), 7)]))
  {
    var toks := [Kw("GO"), Kw("TO"), Token(Num, "3"), Kw("OF"), Token(Ide, "L1"), Comma,
                 Token(Ide, "L2"), Semicolon, EndToken];
    var s7 := State(7, {}, false, []);
    assert LabelTail(toks, State(5, {}, false, []), 1) == LabelTail(toks, s7, 2) == (s7, 2);
    assert NumeralValue("3") == 3 by {
      assert "3"[..0] == [];
    }
    assert ComputedGoRule(toks, State(3, {}, false, []), "3") == Report(s7, JumpIndexOutOfRange(3, 2));
    assert Command(toks, Fresh) == GoRule(toks, State(1, {}, false, []));
  }

  /** `L1: PRINT 1; L1: PRINT 2; END` is rejected at the second `L1`. */
  lemma {:induction false} ExampleDuplicateLabel()
    ensures ParseTokens([Token(Ide, "L1"), Colon, Kw("PRINT"), One, Semicolon,
                         Token(Ide, "L1"), Colon, Kw("PRINT"), Two, Semicolon, EndToken])
         == Verdict(false, State(5, {"L1"}, true, [Diag(DuplicateLabel("L1"), 5)]))
  {
    var toks := [Token(Ide, "L1"), Colon, Kw("PRINT"), One, Semicolon,
                 Token(Ide, "L1"), Colon, Kw("PRINT"), Two, Semicolon, EndToken];
    var s3 := State(3, {"L1"}, false, []);
    var s4 := State(4, {"L1"}, false, []);
    var s5 := State(5, {"L1"}, false, []);
    assert Command(toks, Fresh) == s4 by {
      assert Expression(toks, s3) == ExprTail(toks, s4) == s4;
      assert Fresh.(labels := Fresh.labels + {"L1"}, pos := 2) == State(2, {"L1"}, false, []);
      assert Command(toks, State(2, {"L1"}, false, [])) == PrintRule(toks, s3);
    }
    assert Command(toks, s5) == Report(s5, DuplicateLabel("L1"));
    assert CommandSeq(toks, Fresh) == CommandSeq(toks, s5);
  }

  /** `LET A := (1 + 2; END` is rejected where `)` should be. */
  lemma {:induction false} ExampleMissingCloseParen()
    ensures ParseTokens([Kw("LET"), A, Token(Operator, ":="), Token(Punctuation, "("), One, Plus, Two,
                         Semicolon, EndToken])
         == Verdict(false, State(7, {}, true, [Diag(MissingCloseParen, 7)]))
  {
    var toks := [Kw("LET"), A, Token(Operator, ":="), Token(Punctuation, "("), One, Plus, Two,
                 Semicolon, EndToken];
    var s5 := State(5, {}, false, []);
    var s7 := State(7, {}, false, []);
    assert ExprTail(toks, s7) == s7;
    assert ExprTail(toks, s5) == ExprTail(toks, Factor(toks, State(6, {}, false, []))) == s7;
    assert Expression(toks, State(4, {}, false, [])) == s7;
    assert Factor(toks, State(3, {}, false, [])) == Report(s7, MissingCloseParen);
    assert Command(toks, Fresh) == LetRule(toks, State(1, {}, false, [])) == Report(s7, MissingCloseParen);
  }
}
