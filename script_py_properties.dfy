/**
 * Properties of the script.py parser: what a parse call prints, which token
 * lists it accepts, how computed jumps and labels are checked, and the two
 * places where it keeps going after an error (nested parentheses and the
 * operator loop of expression).
 */
module ScriptPyProperties {
  import opened Chars
  import opened Wrappers
  import opened HandLexer
  import opened TokenStream
  import opened ScriptPyGrammar

  // ---------------------------------------------------------------------
  // What parse prints
  // ---------------------------------------------------------------------

  /** After the lines `before`, parsing tokens prints at least one line;
      success is announced only as the single line after `before`, and a
      grammar error is followed by the closing "failed because of earlier
      errors" line. */
  lemma ParsePrintsVerdict(toks: seq<Token>, before: seq<Message>)
    ensures var out := ParseTokens(toks, before).out;
      && |out| >= |before| + 1 && out[..|before|] == before
      && (out[|out| - 1] == Success <==> out == before + [Success])
    ensures CommandSeq(toks, Fresh.(out := before)).errorFound && toks != [] && toks != [EndToken] ==>
      var out := ParseTokens(toks, before).out;
      |out| >= |before| + 2 && out[|out| - 1] == FailedAfterEarlierErrors
  {
  }

  /** The same for a whole parse call: the echo of the input comes first and
      at least one line follows it; a lexical error prints the offending
      character and the abort line and leaves the parser globals as the
      previous call left them. */
  lemma ParseInputPrintsVerdict(input: string, prior: PState)
    ensures var out := ParseInput(input, prior).out;
      && |out| >= 2 && out[0] == Analyzing(input)
      && (out[|out| - 1] == Success <==> out == [Analyzing(input), Success])
    ensures Lex(input).LexFailed? ==>
      var r := ParseInput(input, prior);
      && r.out == [Analyzing(input), InvalidCharacter(Lex(input).bad), LexicalAnalysisAborted]
      && r.pos == prior.pos && r.labels == prior.labels && r.errorFound == prior.errorFound
    ensures Accepts(input) <==> ParseInput(input, prior).out == [Analyzing(input), Success]
  {
    if Lex(input).Lexed? {
      ParsePrintsVerdict(Lex(input).tokens, [Analyzing(input)]);
    }
  }

  /** The command sequence stops on an error, at the end of the tokens, on END,
      or after a command that is not followed by `;`. */
  lemma {:induction false} CommandSeqStops(toks: seq<Token>, st: PState)
    requires st.pos <= |toks| && !st.errorFound
    ensures var r := CommandSeq(toks, st);
      !r.errorFound ==> r.pos == |toks| || IsEnd(toks, r.pos) || !Is(toks, r.pos, Punctuation, ";")
    decreases |toks| - st.pos
  {
    if st.pos < |toks| && !IsEnd(toks, st.pos) {
      var s1 := Command(toks, st);
      if !s1.errorFound && Is(toks, s1.pos, Punctuation, ";") {
        CommandSeqStops(toks, s1.(pos := s1.pos + 1));
      }
    }
  }

  /** An accepted input lexes to tokens that end with END, and apart from the
      lone END the cursor ends after it. */
  lemma AcceptedProgramsEndWithEnd(input: string)
    requires Accepts(input)
    ensures Lex(input).Lexed?
    ensures var toks := Lex(input).tokens;
      && |toks| > 0 && toks[|toks| - 1] == EndToken
      && (toks == [EndToken] || ParseInput(input, Fresh).pos == |toks|)
  {
    ParseInputPrintsVerdict(input, Fresh);
  }

  // ---------------------------------------------------------------------
  // Commands
  // ---------------------------------------------------------------------

  /** END and the keywords that start no command (TO, OF, THEN, ELSE) make an
      empty command: nothing is consumed and no error is raised. */
  lemma KeywordWithoutCommandIsSkipped(toks: seq<Token>, st: PState)
    requires st.pos < |toks| && !st.errorFound && toks[st.pos].category == Keyword
    requires var v := toks[st.pos].value; v != "LET" && v != "GO" && v != "READ" && v != "PRINT" && v != "IF"
    ensures Command(toks, st) == st
  {
  }

  /** A label already defined in this parse is reported without consuming it;
      a new one is recorded and the command after it is parsed. */
  lemma LabelDefinitions(toks: seq<Token>, st: PState, name: string)
    requires !st.errorFound && st.pos + 2 <= |toks|
    requires toks[st.pos] == Token(Ide, name) && toks[st.pos + 1] == Token(Punctuation, ":")
    ensures name in st.labels ==> Command(toks, st) == Fail(st, DuplicateLabel(name))
    ensures name !in st.labels ==>
      Command(toks, st) == Command(toks, st.(labels := st.labels + {name}, pos := st.pos + 2))
  {
  }

  /** The tokens `, l1 , l2 , ... , lk` stand in `toks` from index p on. */
  predicate CommaLabelsAt(toks: seq<Token>, p: nat, names: seq<string>)
    decreases names
  {
    names == [] ||
    (p + 1 < |toks| && toks[p] == Token(Punctuation, ",") && toks[p + 1] == Token(Ide, names[0])
     && CommaLabelsAt(toks, p + 2, names[1..]))
  }

  /** The label loop, entered on the first label, reads the whole list and
      counts every label. */
  lemma {:induction false} LabelLoopCounts(toks: seq<Token>, st: PState, k: nat, first: string, rest: seq<string>)
    requires !st.errorFound && st.pos < |toks| && toks[st.pos] == Token(Ide, first)
    requires CommaLabelsAt(toks, st.pos + 1, rest) && !Is(toks, st.pos + 1 + 2 * |rest|, Punctuation, ",")
    ensures LabelLoop(toks, st, k) == (st.(pos := st.pos + 1 + 2 * |rest|), k + 1 + |rest|)
    decreases rest
  {
    if rest != [] {
      LabelLoopCounts(toks, st.(pos := st.pos + 2), k + 1, rest[0], rest[1..]);
    }
  }

  /** After `GO TO n`: OF and the label list are read in full, then the
      range check runs with the number of labels. */
  lemma ComputedGoReadsList(toks: seq<Token>, s: PState, numeral: string, first: string, rest: seq<string>)
    requires !s.errorFound && s.pos + 2 <= |toks|
    requires toks[s.pos] == Token(Keyword, "OF") && toks[s.pos + 1] == Token(Ide, first)
    requires CommaLabelsAt(toks, s.pos + 2, rest) && !Is(toks, s.pos + 2 + 2 * |rest|, Punctuation, ",")
    ensures ComputedGoRule(toks, s, numeral) == RangeCheck(s.(pos := s.pos + 2 + 2 * |rest|), numeral, 1 + |rest|)
  {
    var s1 := s.(pos := s.pos + 1);
    var s2 := s.(pos := s.pos + 2 + 2 * |rest|);
    LabelLoopCounts(toks, s1, 0, first, rest);
    assert LabelLoop(toks, s1, 0) == (s2, 1 + |rest|);
    ComputedGoAfterList(toks, s, numeral, s2, 1 + |rest|);
  }

  lemma ComputedGoAfterList(toks: seq<Token>, s: PState, numeral: string, s2: PState, k: nat)
    requires !s.errorFound && Is(toks, s.pos, Keyword, "OF") && IsCat(toks, s.pos + 1, Ide)
    requires LabelLoop(toks, s.(pos := s.pos + 1), 0) == (s2, k) && !s2.errorFound
    ensures ComputedGoRule(toks, s, numeral) == RangeCheck(s2, numeral, k)
  {
  }

  /** GO TO n OF l1, ..., lk with a numeral n: the whole list is read, and the
      command is accepted exactly when 1 <= n <= k; otherwise the message names
      n and k. int() is taken without the digit-count limit of recent CPython
      releases (see PyInt). */
  lemma ComputedJumpChecksRange(toks: seq<Token>, st: PState, numeral: string, names: seq<string>)
    requires !st.errorFound && |names| > 0 && st.pos + 5 <= |toks|
    requires |numeral| > 0 && AllDigits(numeral)
    requires toks[st.pos] == Token(Keyword, "GO") && toks[st.pos + 1] == Token(Keyword, "TO")
    requires toks[st.pos + 2] == Token(Num, numeral) && toks[st.pos + 3] == Token(Keyword, "OF")
    requires toks[st.pos + 4] == Token(Ide, names[0]) && CommaLabelsAt(toks, st.pos + 5, names[1..])
    requires !Is(toks, st.pos + 3 + 2 * |names|, Punctuation, ",")
    ensures var n := NumeralValue(numeral);
      var after := st.(pos := st.pos + 3 + 2 * |names|);
      Command(toks, st) ==
        if 1 <= n <= |names| then after else Fail(after, JumpIndexOutOfRange(n, |names|))
  {
    GoComputedChecksRange(toks, st, numeral, names);
    CommandDispatchesGo(toks, st);
  }

  /** The same for the rest of the command, from the token after GO. */
  lemma GoComputedChecksRange(toks: seq<Token>, st: PState, numeral: string, names: seq<string>)
    requires !st.errorFound && |names| > 0 && st.pos + 5 <= |toks|
    requires |numeral| > 0 && AllDigits(numeral)
    requires toks[st.pos] == Token(Keyword, "GO") && toks[st.pos + 1] == Token(Keyword, "TO")
    requires toks[st.pos + 2] == Token(Num, numeral) && toks[st.pos + 3] == Token(Keyword, "OF")
    requires toks[st.pos + 4] == Token(Ide, names[0]) && CommaLabelsAt(toks, st.pos + 5, names[1..])
    requires !Is(toks, st.pos + 3 + 2 * |names|, Punctuation, ",")
    ensures var n := NumeralValue(numeral);
      var after := st.(pos := st.pos + 3 + 2 * |names|);
      GoRule(toks, st.(pos := st.pos + 1)) ==
        if 1 <= n <= |names| then after else Fail(after, JumpIndexOutOfRange(n, |names|))
  {
    var after := st.(pos := st.pos + 3 + 2 * |names|);
    ComputedGoFromGo(toks, st, numeral, names);
    RangeCheckOfNumeral(after, numeral, |names|);
    GoDispatchesComputed(toks, st.(pos := st.pos + 1));
  }

  /** The list part, located from the GO token. */
  lemma ComputedGoFromGo(toks: seq<Token>, st: PState, numeral: string, names: seq<string>)
    requires !st.errorFound && |names| > 0 && st.pos + 5 <= |toks|
    requires |numeral| > 0 && AllDigits(numeral)
    requires toks[st.pos] == Token(Keyword, "GO") && toks[st.pos + 1] == Token(Keyword, "TO")
    requires toks[st.pos + 2] == Token(Num, numeral) && toks[st.pos + 3] == Token(Keyword, "OF")
    requires toks[st.pos + 4] == Token(Ide, names[0]) && CommaLabelsAt(toks, st.pos + 5, names[1..])
    requires !Is(toks, st.pos + 3 + 2 * |names|, Punctuation, ",")
    ensures ComputedGoRule(toks, st.(pos := st.pos + 3), numeral)
      == RangeCheck(st.(pos := st.pos + 3 + 2 * |names|), numeral, |names|)
  {
    var s3 := st.(pos := st.pos + 3);
    ComputedGoReadsList(toks, s3, numeral, names[0], names[1..]);
    assert s3.(pos := s3.pos + 2 + 2 * |names[1..]|) == st.(pos := st.pos + 3 + 2 * |names|);
  }

  /** The range check on a digit string compares its value with the list length. */
  lemma RangeCheckOfNumeral(st: PState, numeral: string, k: nat)
    requires |numeral| > 0 && AllDigits(numeral)
    ensures var n := NumeralValue(numeral);
      RangeCheck(st, numeral, k) == if 1 <= n <= k then st else Fail(st, JumpIndexOutOfRange(n, k))
  {
  }

  lemma CommandDispatchesGo(toks: seq<Token>, st: PState)
    requires !st.errorFound && Is(toks, st.pos, Keyword, "GO")
    ensures Command(toks, st) == GoRule(toks, st.(pos := st.pos + 1))
  {
  }

  lemma GoDispatchesComputed(toks: seq<Token>, s: PState)
    requires !s.errorFound && Is(toks, s.pos, Keyword, "TO") && IsCat(toks, s.pos + 1, Num)
    ensures GoRule(toks, s) == ComputedGoRule(toks, s.(pos := s.pos + 2), toks[s.pos + 1].value)
  {
  }

  // ---------------------------------------------------------------------
  // Errors that do not stop the parser
  // ---------------------------------------------------------------------

  /** `n` opening parentheses. */
  function Opens(n: nat): (r: seq<Token>)
    ensures |r| == n && forall k :: 0 <= k < n ==> r[k] == Token(Punctuation, "(")
  {
    if n == 0 then [] else Opens(n - 1) + [Token(Punctuation, "(")]
  }

  /** `n` copies of the missing-')' message. */
  function CloseParenErrors(n: nat): (r: seq<Message>)
    ensures |r| == n && forall k :: 0 <= k < n ==> r[k] == ExpectedCloseParen
  {
    if n == 0 then [] else [ExpectedCloseParen] + CloseParenErrors(n - 1)
  }

  /** `((...(x` with n unclosed parentheses: every nesting level prints its
      own missing-')' message, since factor tests for ')' without looking at
      error_found. */
  lemma {:induction false} UnclosedParensReportedPerLevel(n: nat, x: string, i: nat, st: PState)
    requires i <= n && st.pos == i && !st.errorFound
    ensures var r := Factor(Opens(n) + [Token(Ide, x)], st);
      && r.pos == n + 1 && r.errorFound == (i < n)
      && r.out == st.out + CloseParenErrors(n - i)
    decreases n - i
  {
    var toks := Opens(n) + [Token(Ide, x)];
    if i < n {
      assert toks[i] == Token(Punctuation, "(");
      var inner := st.(pos := i + 1);
      UnclosedParensReportedPerLevel(n, x, i + 1, inner);
      var f := Factor(toks, inner);
      assert !IsArith(toks, f.pos);
      assert Expression(toks, inner) == f;
      assert CloseParenErrors(n - i) == CloseParenErrors(n - (i + 1)) + [ExpectedCloseParen];
    } else {
      assert toks[n] == Token(Ide, x);
    }
  }

  /** The end of the run of + - * / operators that starts at p. */
  function OperatorRunEnd(toks: seq<Token>, p: nat): (r: nat)
    requires p <= |toks|
    ensures p <= r <= |toks| && !IsArith(toks, r)
    ensures forall k :: p <= k < r ==> IsArith(toks, k)
    decreases |toks| - p
  {
    if IsArith(toks, p) then OperatorRunEnd(toks, p + 1) else p
  }

  /** After an error the operator loop of expression still runs: it passes
      every operator of the run under the cursor, prints nothing more and
      leaves the cursor on the first token that is not an operator. */
  lemma {:induction false} OperatorLoopSkipsAfterError(toks: seq<Token>, st: PState)
    requires st.pos <= |toks| && st.errorFound
    ensures ExprLoop(toks, st) == st.(pos := OperatorRunEnd(toks, st.pos))
    decreases |toks| - st.pos
  {
    if IsArith(toks, st.pos) {
      OperatorLoopSkipsAfterError(toks, st.(pos := st.pos + 1));
    }
  }
}
