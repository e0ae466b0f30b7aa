/**
 * Main.java and script.py side by side. Both lex with the same rules, and
 * on every path where Main.java's parser meets no error and stops before the
 * end of the tokens, script.py's parser takes the same path. So every input
 * Main.java accepts, script.py accepts too. The converse fails: script.py
 * treats END after a label as an empty command.
 */
module CrossVersion {
  import opened Chars
  import opened HandLexer
  import opened TokenStream
  import M = MainGrammar
  import P = ScriptPyGrammar
  import MP = MainProperties
  import MPr = MainPrograms

  /** The two parsers stand at the same token with the same labels and no error. */
  predicate Sim(m: M.State, p: P.PState) {
    m.pos == p.pos && m.labels == p.labels && !m.errorFound && !p.errorFound
  }

  /** Main.java's parser has met no error and has not run off the tokens. */
  predicate Good(toks: seq<Token>, m: M.State) {
    !m.errorFound && m.pos < |toks|
  }

  lemma {:induction false} FactorAgrees(toks: seq<Token>, m: M.State, p: P.PState)
    requires m.pos <= |toks| && Sim(m, p)
    ensures Good(toks, M.Factor(toks, m)) ==> Sim(M.Factor(toks, m), P.Factor(toks, p))
    decreases |toks| - m.pos, 0
  {
    if m.pos < |toks| && toks[m.pos].category != Ide && toks[m.pos].category != Num && Is(toks, m.pos, Punctuation, "(") {
      ExpressionAgrees(toks, m.(pos := m.pos + 1), p.(pos := p.pos + 1));
    }
  }

  lemma {:induction false} ExpressionAgrees(toks: seq<Token>, m: M.State, p: P.PState)
    requires m.pos <= |toks| && Sim(m, p)
    ensures Good(toks, M.Expression(toks, m)) ==> Sim(M.Expression(toks, m), P.Expression(toks, p))
    decreases |toks| - m.pos, 2
  {
    if m.pos < |toks| {
      FactorAgrees(toks, m, p);
      var mf := M.Factor(toks, m);
      if Good(toks, mf) {
        ExprTailAgrees(toks, mf, P.Factor(toks, p));
      }
    }
  }

  lemma {:induction false} ExprTailAgrees(toks: seq<Token>, m: M.State, p: P.PState)
    requires m.pos <= |toks| && Sim(m, p)
    ensures Good(toks, M.ExprTail(toks, m)) ==> Sim(M.ExprTail(toks, m), P.ExprLoop(toks, p))
    decreases |toks| - m.pos, 1
  {
    if IsArith(toks, m.pos) {
      FactorAgrees(toks, m.(pos := m.pos + 1), p.(pos := p.pos + 1));
      var mf := M.Factor(toks, m.(pos := m.pos + 1));
      if Good(toks, mf) {
        ExprTailAgrees(toks, mf, P.Factor(toks, p.(pos := p.pos + 1)));
      }
    }
  }

  /** Both parsers end with an error or both end without one, and then at
      the same token with the same labels. */
  predicate SameOutcome(m: M.State, p: P.PState) {
    m.errorFound == p.errorFound && (!m.errorFound ==> m.pos == p.pos && m.labels == p.labels)
  }

  /** On expressions the two parsers coincide, error or not: script.py's
      extra messages after an error change neither the flag nor, before an
      error, the cursor. */
  lemma {:induction false} FactorsCoincide(toks: seq<Token>, m: M.State, p: P.PState)
    requires m.pos <= |toks| && Sim(m, p)
    ensures SameOutcome(M.Factor(toks, m), P.Factor(toks, p))
    decreases |toks| - m.pos, 0
  {
    if m.pos < |toks| && toks[m.pos].category != Ide && toks[m.pos].category != Num && Is(toks, m.pos, Punctuation, "(") {
      ExpressionsCoincide(toks, m.(pos := m.pos + 1), p.(pos := p.pos + 1));
    }
  }

  lemma {:induction false} ExpressionsCoincide(toks: seq<Token>, m: M.State, p: P.PState)
    requires m.pos <= |toks| && Sim(m, p)
    ensures SameOutcome(M.Expression(toks, m), P.Expression(toks, p))
    decreases |toks| - m.pos, 2
  {
    if m.pos < |toks| {
      FactorsCoincide(toks, m, p);
      var mf, pf := M.Factor(toks, m), P.Factor(toks, p);
      if !mf.errorFound {
        ExprTailsCoincide(toks, mf, pf);
      }
    }
  }

  lemma {:induction false} ExprTailsCoincide(toks: seq<Token>, m: M.State, p: P.PState)
    requires m.pos <= |toks| && Sim(m, p)
    ensures SameOutcome(M.ExprTail(toks, m), P.ExprLoop(toks, p))
    decreases |toks| - m.pos, 1
  {
    if IsArith(toks, m.pos) {
      FactorsCoincide(toks, m.(pos := m.pos + 1), p.(pos := p.pos + 1));
      var mf, pf := M.Factor(toks, m.(pos := m.pos + 1)), P.Factor(toks, p.(pos := p.pos + 1));
      if !mf.errorFound {
        ExprTailsCoincide(toks, mf, pf);
      }
    }
  }

  /** So script.py's expression, too, ends without error at a token q before
      the end exactly when it passed a well-formed flat chain and q is not an
      arithmetic operator. */
  lemma ScriptExpressionIsFlatChain(toks: seq<Token>, st: P.PState, q: nat)
    requires !st.errorFound && st.pos <= q < |toks|
    ensures P.Expression(toks, st) == st.(pos := q) <==>
      (exists e :: MP.ValidExpr(e) && toks[st.pos..q] == MP.ExprTokens(e)) && !IsArith(toks, q)
  {
    var m := M.State(st.pos, st.labels, false, []);
    ExpressionsCoincide(toks, m, st);
    MP.ExpressionIsFlatChain(toks, m, q);
  }

  lemma LetAgrees(toks: seq<Token>, m: M.State, p: P.PState)
    requires m.pos <= |toks| && Sim(m, p)
    ensures Good(toks, M.LetRule(toks, m)) ==> Sim(M.LetRule(toks, m), P.LetRule(toks, p))
  {
    if IsCat(toks, m.pos, Ide) && Is(toks, m.pos + 1, Operator, ":=") {
      ExpressionAgrees(toks, m.(pos := m.pos + 2), p.(pos := p.pos + 2));
    }
  }

  /** Main.java's label loop starts after the first label with one label
      counted; script.py's starts on it with none. */
  lemma {:induction false} LabelsAgree(toks: seq<Token>, m: M.State, p: P.PState, k: nat)
    requires IsCat(toks, p.pos, Ide) && m.pos == p.pos + 1 && m.labels == p.labels
    requires !m.errorFound && !p.errorFound
    ensures var (mr, mk) := M.LabelTail(toks, m, k + 1);
      var (pr, pk) := P.LabelLoop(toks, p, k);
      Good(toks, mr) ==> Sim(mr, pr) && mk == pk
    decreases |toks| - p.pos
  {
    if Is(toks, m.pos, Punctuation, ",") && IsCat(toks, m.pos + 1, Ide) {
      LabelsAgree(toks, m.(pos := m.pos + 2), p.(pos := m.pos + 1), k + 1);
    }
  }

  lemma ComputedGoAgrees(toks: seq<Token>, m: M.State, p: P.PState, numeral: string)
    requires m.pos <= |toks| && Sim(m, p)
    ensures Good(toks, M.ComputedGoRule(toks, m, numeral)) ==> Sim(M.ComputedGoRule(toks, m, numeral), P.ComputedGoRule(toks, p, numeral))
  {
    if Is(toks, m.pos, Keyword, "OF") && IsCat(toks, m.pos + 1, Ide) {
      LabelsAgree(toks, m.(pos := m.pos + 2), p.(pos := p.pos + 1), 0);
    }
  }

  lemma GoAgrees(toks: seq<Token>, m: M.State, p: P.PState)
    requires m.pos <= |toks| && Sim(m, p)
    ensures Good(toks, M.GoRule(toks, m)) ==> Sim(M.GoRule(toks, m), P.GoRule(toks, p))
  {
    var q := m.pos + 1;
    if Is(toks, m.pos, Keyword, "TO") && q < |toks| && toks[q].category == Num {
      ComputedGoAgrees(toks, m.(pos := q + 1), p.(pos := q + 1), toks[q].value);
    }
  }

  /** As for labels, Main.java's READ loop starts after the first identifier. */
  lemma {:induction false} ReadListsAgree(toks: seq<Token>, m: M.State, p: P.PState)
    requires IsCat(toks, p.pos, Ide) && m.pos == p.pos + 1 && m.labels == p.labels
    requires !m.errorFound && !p.errorFound
    ensures Good(toks, M.ReadTail(toks, m)) ==> Sim(M.ReadTail(toks, m), P.ReadLoop(toks, p))
    decreases |toks| - p.pos
  {
    if Is(toks, m.pos, Punctuation, ",") && IsCat(toks, m.pos + 1, Ide) {
      ReadListsAgree(toks, m.(pos := m.pos + 2), p.(pos := m.pos + 1));
    }
  }

  lemma ReadAgrees(toks: seq<Token>, m: M.State, p: P.PState)
    requires m.pos <= |toks| && Sim(m, p)
    ensures Good(toks, M.ReadRule(toks, m)) ==> Sim(M.ReadRule(toks, m), P.ReadRule(toks, p))
  {
    if IsCat(toks, m.pos, Ide) {
      ReadListsAgree(toks, m.(pos := m.pos + 1), p);
    }
  }

  lemma {:induction false} PrintListsAgree(toks: seq<Token>, m: M.State, p: P.PState)
    requires m.pos <= |toks| && Sim(m, p)
    ensures Good(toks, M.PrintTail(toks, m)) ==> Sim(M.PrintTail(toks, m), P.PrintLoop(toks, p))
    decreases |toks| - m.pos
  {
    if Is(toks, m.pos, Punctuation, ",") && m.pos + 1 < |toks| {
      var m1, p1 := m.(pos := m.pos + 1), p.(pos := p.pos + 1);
      ExpressionAgrees(toks, m1, p1);
      var me := M.Expression(toks, m1);
      if Good(toks, me) {
        PrintListsAgree(toks, me, P.Expression(toks, p1));
      }
    }
  }

  lemma PrintAgrees(toks: seq<Token>, m: M.State, p: P.PState)
    requires m.pos <= |toks| && Sim(m, p)
    ensures Good(toks, M.PrintRule(toks, m)) ==> Sim(M.PrintRule(toks, m), P.PrintRule(toks, p))
  {
    if m.pos < |toks| {
      ExpressionAgrees(toks, m, p);
      var me := M.Expression(toks, m);
      if Good(toks, me) {
        PrintListsAgree(toks, me, P.Expression(toks, p));
      }
    }
  }

  lemma {:induction false} IfAgrees(toks: seq<Token>, m: M.State, p: P.PState)
    requires m.pos <= |toks| && Sim(m, p)
    ensures Good(toks, M.IfRule(toks, m)) ==> Sim(M.IfRule(toks, m), P.IfRule(toks, p))
    decreases |toks| - m.pos, 2
  {
    ExpressionAgrees(toks, m, p);
    var m1, p1 := M.Expression(toks, m), P.Expression(toks, p);
    if Good(toks, m1) && IsRelOp(toks, m1.pos) {
      ExpressionAgrees(toks, m1.(pos := m1.pos + 1), p1.(pos := p1.pos + 1));
      var m2, p2 := M.Expression(toks, m1.(pos := m1.pos + 1)), P.Expression(toks, p1.(pos := p1.pos + 1));
      if Good(toks, m2) && Is(toks, m2.pos, Keyword, "THEN") {
        ThenElseAgrees(toks, m2.(pos := m2.pos + 1), p2.(pos := p2.pos + 1));
      }
    }
  }

  lemma {:induction false} ThenElseAgrees(toks: seq<Token>, m: M.State, p: P.PState)
    requires m.pos <= |toks| && Sim(m, p)
    ensures Good(toks, M.ThenElse(toks, m)) ==> Sim(M.ThenElse(toks, m), P.ThenElse(toks, p))
    decreases |toks| - m.pos, 1
  {
    CommandAgrees(toks, m, p);
    var m3, p3 := M.Command(toks, m), P.Command(toks, p);
    if Good(toks, m3) && Is(toks, m3.pos, Keyword, "ELSE") {
      CommandAgrees(toks, m3.(pos := m3.pos + 1), p3.(pos := p3.pos + 1));
    }
  }

  lemma {:induction false} CommandAgrees(toks: seq<Token>, m: M.State, p: P.PState)
    requires m.pos <= |toks| && Sim(m, p)
    ensures Good(toks, M.Command(toks, m)) ==> Sim(M.Command(toks, m), P.Command(toks, p))
    decreases |toks| - m.pos, 0
  {
    if m.pos < |toks| {
      var t := toks[m.pos];
      var m1, p1 := m.(pos := m.pos + 1), p.(pos := p.pos + 1);
      if t.category == Ide && Is(toks, m.pos + 1, Punctuation, ":") {
        if t.value !in m.labels {
          CommandAgrees(toks, m.(labels := m.labels + {t.value}, pos := m.pos + 2), p.(labels := p.labels + {t.value}, pos := p.pos + 2));
        }
      } else if t.category == Keyword {
        if t.value == "LET" {
          LetAgrees(toks, m1, p1);
        } else if t.value == "GO" {
          GoAgrees(toks, m1, p1);
        } else if t.value == "READ" {
          ReadAgrees(toks, m1, p1);
        } else if t.value == "PRINT" {
          PrintAgrees(toks, m1, p1);
        } else if t.value == "IF" {
          IfAgrees(toks, m1, p1);
        }
      }
    }
  }

  lemma {:induction false} CommandSeqAgrees(toks: seq<Token>, m: M.State, p: P.PState)
    requires m.pos <= |toks| && Sim(m, p)
    ensures Good(toks, M.CommandSeq(toks, m)) ==> Sim(M.CommandSeq(toks, m), P.CommandSeq(toks, p))
    decreases |toks| - m.pos
  {
    if m.pos < |toks| && !IsEnd(toks, m.pos) {
      CommandAgrees(toks, m, p);
      var m1, p1 := M.Command(toks, m), P.Command(toks, p);
      if Good(toks, m1) && Is(toks, m1.pos, Punctuation, ";") {
        CommandSeqAgrees(toks, m1.(pos := m1.pos + 1), p1.(pos := p1.pos + 1));
      }
    }
  }

  /** A token list Main.java's parse accepts is accepted by script.py's parse:
      after the lines printed before, only the success line follows. */
  lemma MainAcceptedTokensAreScriptAccepted(toks: seq<Token>, before: seq<P.Message>)
    requires M.ParseTokens(toks).accepted
    ensures P.ParseTokens(toks, before).out == before + [P.Success]
  {
    if toks != [] && toks != [EndToken] {
      CommandSeqAgrees(toks, M.Fresh, P.Fresh.(out := before));
    }
  }

  /** Every well-formed program, written as tokens, is accepted by script.py
      too. */
  lemma {:induction false} ScriptAcceptsPrograms(toks: seq<Token>, prog: MPr.Program, before: seq<P.Message>)
    requires MPr.ValidProgram(prog) && MPr.Written(toks, prog)
    ensures P.ParseTokens(toks, before).out == before + [P.Success]
  {
    MPr.ProgramAccepted(toks, prog);
    MainAcceptedTokensAreScriptAccepted(toks, before);
  }

  /** script.py's `command` reads every well-formed command whose labels are
      new in full, up to the `;`, END or ELSE after it, records its labels
      and prints nothing. */
  lemma {:induction false} ScriptCommandReads(toks: seq<Token>, st: P.PState, c: MPr.Cmd, q: nat)
    requires st.pos <= |toks| && !st.errorFound && MPr.ValidCmd(c) && MPr.CmdAt(toks, st.pos, c)
    requires q == st.pos + MPr.Width(c) && MPr.Terminator(toks, q)
    requires MPr.NoDup(MPr.Labels(c)) && MPr.Undefined(MPr.Labels(c), st.labels)
    ensures P.Command(toks, st) == st.(pos := q, labels := st.labels + MPr.LabelSet(MPr.Labels(c)))
  {
    var m := M.State(st.pos, st.labels, false, []);
    MPr.CommandReads(toks, m, c, q);
    CommandAgrees(toks, m, st);
  }

  /** Every input Main.java accepts, script.py accepts. */
  lemma MainAcceptedInputIsScriptAccepted(input: string)
    requires M.ParseInput(input).accepted
    ensures P.Accepts(input)
  {
    MainAcceptedTokensAreScriptAccepted(Lex(input).tokens, [P.Analyzing(input)]);
  }

  /** `L: END` as tokens: a label prefix with END where its command should be. */
  const LabelThenEnd: seq<Token> := [Token(Ide, "L"), Token(Punctuation, ":"), EndToken]

  /** The converse fails: script.py parses END after a label as an empty
      command and accepts, while Main.java reports an unexpected END. */
  lemma ScriptAcceptsMoreThanMain(before: seq<P.Message>)
    ensures P.ParseTokens(LabelThenEnd, before).out == before + [P.Success]
    ensures M.ParseTokens(LabelThenEnd) == M.Verdict(false, M.State(2, {"L"}, true, [M.Diag(M.UnexpectedEnd, 3)]))
  {
    var toks := LabelThenEnd;
    assert toks[0].category == Ide && Is(toks, 1, Punctuation, ":") && IsEnd(toks, 2);
    var afterLabel := M.State(2, {"L"}, false, []);
    assert M.Command(toks, M.Fresh) == M.Command(toks, afterLabel);
    var pStart := P.Fresh.(out := before);
    var pAfter := P.PState(2, {"L"}, false, before);
    assert P.Command(toks, pStart) == P.Command(toks, pAfter) == pAfter;
    assert P.CommandSeq(toks, pStart) == pAfter;
  }

  /** The same divergence on the source text `L: END`. */
  lemma ScriptAcceptsLabelledEndInput()
    ensures P.Accepts("L: END")
    ensures !M.ParseInput("L: END").accepted
  {
    LexLabelledEnd();
    ScriptAcceptsMoreThanMain([P.Analyzing("L: END")]);
  }

  lemma LexLabelledEnd()
    ensures Lex("L: END") == Lexed(LabelThenEnd)
  {
    var s := "L: END";
    LexEndOfLabelledEnd();
    assert AlnumEnd(s, 1) == 1 && AlnumEnd(s, 0) == 1;
    assert Word(s[0..1]) == Token(Ide, "L") by {
      assert s[0..1] == "L";
      assert ToUpper("L") == "L";
    }
    assert LexFrom(s, 1) == Lexed([Token(Punctuation, ":"), EndToken]);
  }

  lemma LexEndOfLabelledEnd()
    ensures LexFrom("L: END", 2) == Lexed([EndToken])
  {
    var s := "L: END";
    assert AlnumEnd(s, 5) == 6 && AlnumEnd(s, 3) == 6;
    assert Word(s[3..6]) == EndToken by {
      assert s[3..6] == "END";
      assert ToUpper("END") == "END";
    }
    assert LexFrom(s, 3) == Lexed([EndToken]);
  }
}
