/**
 * BasicParser of script.java: the lexer loop, expression and factor, and the
 * checks parse makes before it reaches the command sequence. The fields
 * `tokens`, `position`, `labelsDefined` and `errorFound` are updated in place;
 * `printed` is what the parser has written to the console. Each method is
 * proved to do what a function below (or HandLexer.Lex) describes, and those
 * functions are proved to agree with script.py's on every token list the
 * lexer can produce, although two of their tests look at a token's value only.
 */
module ScriptJava {
  import opened Chars
  import opened Wrappers
  import opened HandLexer
  import opened TokenStream
  import P = ScriptPyGrammar

  // ----- String.contains on the operator string -----

  /** String.contains: `v` occurs in `s` at some offset (the empty string occurs everywhere). */
  function Contains(s: string, v: string): (r: bool)
    ensures r ==> |v| <= |s|
    decreases |s|
  {
    (|v| <= |s| && s[..|v|] == v) || (|s| > 0 && Contains(s[1..], v))
  }

  const ArithText: string := "+-*/"

  /** The values the expression loop of script.java treats as an operator:
      every piece of "+-*&#47;", the empty string and runs of two or more included. */
  lemma ArithTextPieces(v: string)
    ensures Contains(ArithText, v) <==>
      v in {"", "+", "-", "*", "/", "+-", "-*", "*/", "+-*", "-*/", "+-*/"}
  {
    assert ArithText[1..] == "-*/" && "-*/"[1..] == "*/" && "*/"[1..] == "/" && "/"[1..] == "";
    if |v| == 1 {
      assert ArithText[..1] == "+" && "-*/"[..1] == "-" && "*/"[..1] == "*" && "/"[..1] == "/";
    } else if |v| == 2 {
      assert ArithText[..2] == "+-" && "-*/"[..2] == "-*" && "*/"[..2] == "*/";
    } else if |v| == 3 {
      assert ArithText[..3] == "+-*" && "-*/"[..3] == "-*/";
    } else if |v| == 4 {
      assert ArithText[..4] == "+-*/";
    }
  }

  /** On a token the lexer can produce, the value-only test of the expression
      loop is script.py's test: an operator token spelled + - * or /. */
  lemma OperatorTestAgrees(t: Token)
    requires WellFormed(t)
    ensures Contains(ArithText, t.value) <==> t.category == Operator && IsArithSpelling(t.value)
  {
    ArithTextPieces(t.value);
    if t.category == Ide {
      assert IsLetter(t.value[0]);
    } else if t.category == Num {
      assert IsDigit(t.value[0]);
    }
  }

  /** On a token the lexer can produce, the value-only test for `)` is
      script.py's test for the punctuation token `)`. */
  lemma CloseTestAgrees(t: Token)
    requires WellFormed(t)
    ensures t.value == ")" <==> t == Token(Punctuation, ")")
  {
    if t.category == Ide {
      assert IsLetter(t.value[0]);
    } else if t.category == Num {
      assert IsDigit(t.value[0]);
    }
  }

  predicate AllWellFormed(toks: seq<Token>) {
    forall k :: 0 <= k < |toks| ==> WellFormed(toks[k])
  }

  // ----- expression() and factor() as functions on the parser fields -----

  // factor(): the `(` test checks category and value, the `)` test only the
  // value, and the `)` test runs even when the inner expression failed.
  function JFactor(toks: seq<Token>, st: P.PState): (r: P.PState)
    requires st.pos <= |toks|
    ensures P.Advances(toks, st, r) && r.labels == st.labels
    ensures st.errorFound ==> r == st
    decreases |toks| - st.pos, 0
  {
    if st.errorFound || st.pos >= |toks| then st
    else
      var cur := toks[st.pos];
      if cur.category == Ide || cur.category == Num then st.(pos := st.pos + 1)
      else if cur.category == Punctuation && cur.value == "(" then
        var s := JExpression(toks, st.(pos := st.pos + 1));
        if s.pos < |toks| && toks[s.pos].value == ")" then s.(pos := s.pos + 1)
        else P.Fail(s, P.ExpectedCloseParen)
      else P.Fail(st, P.ExpectedFactor)
  }

  // expression(): nothing after an error or at the end, else a factor and the loop.
  function JExpression(toks: seq<Token>, st: P.PState): (r: P.PState)
    requires st.pos <= |toks|
    ensures P.Advances(toks, st, r) && r.labels == st.labels
    ensures st.errorFound ==> r == st
    decreases |toks| - st.pos, 2
  {
    if st.errorFound || st.pos >= |toks| then st
    else JExprLoop(toks, JFactor(toks, st))
  }

  // The while loop of expression(): any token whose value occurs in "+-*/"
  // continues it, whatever its category, and errorFound is not tested.
  function JExprLoop(toks: seq<Token>, st: P.PState): (r: P.PState)
    requires st.pos <= |toks|
    ensures P.Advances(toks, st, r) && r.labels == st.labels
    ensures st.errorFound ==> r.out == st.out
    decreases |toks| - st.pos, 1
  {
    if st.pos < |toks| && Contains(ArithText, toks[st.pos].value) then
      JExprLoop(toks, JFactor(toks, st.(pos := st.pos + 1)))
    else st
  }

  lemma {:induction false} FactorAgrees(toks: seq<Token>, st: P.PState)
    requires st.pos <= |toks| && AllWellFormed(toks)
    ensures JFactor(toks, st) == P.Factor(toks, st)
    decreases |toks| - st.pos, 0
  {
    if !st.errorFound && st.pos < |toks| {
      var cur := toks[st.pos];
      if cur.category != Ide && cur.category != Num && cur == Token(Punctuation, "(") {
        var inner := st.(pos := st.pos + 1);
        ExpressionAgrees(toks, inner);
        var s := P.Expression(toks, inner);
        if s.pos < |toks| {
          CloseTestAgrees(toks[s.pos]);
        }
      }
    }
  }

  /** On the tokens of any input the lexer accepts, expression() of
      script.java moves the cursor, sets the error flag and prints exactly as
      expression() of script.py does. */
  lemma {:induction false} ExpressionAgrees(toks: seq<Token>, st: P.PState)
    requires st.pos <= |toks| && AllWellFormed(toks)
    ensures JExpression(toks, st) == P.Expression(toks, st)
    decreases |toks| - st.pos, 2
  {
    if !st.errorFound && st.pos < |toks| {
      FactorAgrees(toks, st);
      ExprLoopAgrees(toks, P.Factor(toks, st));
    }
  }

  lemma {:induction false} ExprLoopAgrees(toks: seq<Token>, st: P.PState)
    requires st.pos <= |toks| && AllWellFormed(toks)
    ensures JExprLoop(toks, st) == P.ExprLoop(toks, st)
    decreases |toks| - st.pos, 1
  {
    if st.pos < |toks| {
      OperatorTestAgrees(toks[st.pos]);
      if IsArith(toks, st.pos) {
        var next := st.(pos := st.pos + 1);
        FactorAgrees(toks, next);
        var f := P.Factor(toks, next);
        ExprLoopAgrees(toks, f);
        JExprLoopStep(toks, st, f);
        PExprLoopStep(toks, st, f);
      } else {
        assert !Contains(ArithText, toks[st.pos].value);
      }
    }
  }

  lemma PExprLoopStep(toks: seq<Token>, st: P.PState, f: P.PState)
    requires IsArith(toks, st.pos) && P.Factor(toks, st.(pos := st.pos + 1)) == f
    ensures P.ExprLoop(toks, st) == P.ExprLoop(toks, f)
  {
  }

  lemma JExprLoopStep(toks: seq<Token>, st: P.PState, f: P.PState)
    requires st.pos < |toks| && Contains(ArithText, toks[st.pos].value)
    requires JFactor(toks, st.(pos := st.pos + 1)) == f
    ensures JExprLoop(toks, st) == JExprLoop(toks, f)
  {
  }

  /** A token list the lexer cannot produce, on which the two loops part:
      script.java reads `A +- B` as one expression, script.py stops before `+-`. */
  lemma OperatorRunDiverges()
    ensures var toks := [Token(Ide, "A"), Token(Operator, "+-"), Token(Ide, "B")];
      && JExpression(toks, P.Fresh).pos == 3
      && P.Expression(toks, P.Fresh).pos == 1
  {
    var toks := [Token(Ide, "A"), Token(Operator, "+-"), Token(Ide, "B")];
    ArithTextPieces("+-");
    assert JFactor(toks, P.Fresh) == P.Fresh.(pos := 1);
    assert JFactor(toks, P.Fresh.(pos := 2)) == P.Fresh.(pos := 3);
    assert JExprLoop(toks, P.Fresh.(pos := 1)) == P.Fresh.(pos := 3);
    assert P.Factor(toks, P.Fresh) == P.Fresh.(pos := 1);
  }

  // ----- The start of parse() -----

  /** Where parse stops before the command sequence: an aborted lexical
      analysis, a one-line answer, or the tokens to go on with. */
  datatype Opening = Aborted(ch: char) | Answered(m: P.Message) | Proceeds(toks: seq<Token>)

  /** The empty test and the single-END test of parse; the latter looks at
      the token's value only. */
  function Start(input: string): (r: Opening)
    ensures r.Aborted? <==> Lex(input).LexFailed?
    ensures r.Proceeds? ==> Lex(input) == Lexed(r.toks) && |r.toks| >= 1
  {
    match Lex(input)
    case LexFailed(c, _) => Aborted(c)
    case Lexed(toks) =>
      if toks == [] then Answered(P.EmptyInput)
      else if |toks| == 1 && toks[0].value == "END" then Answered(P.Success)
      else Proceeds(toks)
  }

  /** On tokens the lexer can produce, the value-only single-END test is
      script.py's test for the END keyword. */
  lemma LoneEndTestAgrees(toks: seq<Token>)
    requires AllWellFormed(toks)
    ensures |toks| == 1 && toks[0].value == "END" <==> toks == [EndToken]
  {
    if |toks| == 1 && toks[0].value == "END" {
      assert WellFormed(toks[0]) && ToUpper("END") == "END";
    }
  }

  /** Whenever script.java stops before its command sequence, script.py's
      parse prints the same lines and leaves the globals the same way; when it
      goes on, so does script.py, with the same tokens. */
  lemma StartAgreesWithScriptPy(input: string, prior: P.PState)
    ensures Start(input).Aborted? ==>
      P.ParseInput(input, prior) == prior.(out := [P.Analyzing(input), P.InvalidCharacter(Start(input).ch), P.LexicalAnalysisAborted])
    ensures Start(input).Answered? ==>
      P.ParseInput(input, prior) == P.Say(P.Fresh.(out := [P.Analyzing(input)]), Start(input).m)
    ensures Start(input).Proceeds? ==>
      P.Tokenized(input) == Some(Start(input).toks) && Start(input).toks != [EndToken]
  {
    LexWellFormed(input);
    if Lex(input).Lexed? {
      var toks := Lex(input).tokens;
      assert forall k :: 0 <= k < |toks| ==> toks[k] in toks;
      LoneEndTestAgrees(toks);
    }
  }

  // ----- The class -----

  class BasicParser {
    /** None after a lexical error: parse then leaves it null. */
    var tokens: Option<seq<Token>>
    var position: nat
    var labelsDefined: set<string>
    var errorFound: bool
    /** The console lines written so far. */
    var printed: seq<P.Message>

    /** The parser fields seen as script.py's globals. */
    function State(): P.PState
      reads this
    {
      P.PState(position, labelsDefined, errorFound, printed)
    }

    constructor ()
      ensures tokens == Some([]) && position == 0 && labelsDefined == {} && !errorFound
      ensures printed == []
    {
      tokens := Some([]);
      position := 0;
      labelsDefined := {};
      errorFound := false;
      printed := [];
    }

    /** tokenize: the token list, or null after printing the first invalid character. */
    method Tokenize(input: string) returns (tokenList: Option<seq<Token>>)
      modifies this`printed
      ensures tokenList == P.Tokenized(input)
      ensures printed == old(printed) + if Lex(input).Lexed? then [] else [P.InvalidCharacter(Lex(input).bad)]
    {
      var collected: seq<Token> := [];
      var index: nat := 0;
      while index < |input|
        invariant index <= |input| && printed == old(printed)
        invariant Lex(input) == Prepend(collected, LexFrom(input, index))
        decreases |input| - index
      {
        var ch := input[index];
        ghost var i0 := index;
        if IsWhitespace(ch) {
          LexStep(input, index, collected);
          index := index + 1;
        } else if IsLetter(ch) {
          var word;
          word, index := ReadAlnum(input, index);
          var token;
          if ToUpper(word) in Reserved {
            token := Token(Keyword, ToUpper(word));
          } else {
            token := Token(Ide, word);
          }
          ScanLetter(input, i0);
          EmitStep(input, i0, collected, token, index);
          collected := collected + [token];
        } else if IsDigit(ch) {
          var number;
          number, index := ReadNumber(input, index);
          ScanDigits(input, i0);
          EmitStep(input, i0, collected, Token(Num, number), index);
          collected := collected + [Token(Num, number)];
        } else {
          var token, next := ReadSymbol(input, index);
          if token == None {
            LexStep(input, index, collected);
            printed := printed + [P.InvalidCharacter(ch)];
            return None;
          }
          EmitStep(input, index, collected, token.value, next);
          collected := collected + [token.value];
          index := next;
        }
      }
      assert collected + [] == collected;
      return Some(collected);
    }

    /** The switch of tokenize on a character that is neither blank, a letter
        nor a digit: the operator or punctuation token it starts, with the
        index after it, or None for the default case. */
    method ReadSymbol(input: string, index: nat) returns (token: Option<Token>, next: nat)
      requires index < |input| && !IsWhitespace(input[index])
      requires !IsLetter(input[index]) && !IsDigit(input[index])
      ensures token.None? <==> Scan(input, index).Stuck?
      ensures token.Some? ==> Scan(input, index) == Emit(token.value, next)
    {
      var ch := input[index];
      var twoCharacters := index + 1 < |input| && input[index + 1] == '=';
      match ch
      case ':' =>
        if twoCharacters {
          return Some(Token(Operator, ":=")), index + 2;
        }
        return Some(Token(Punctuation, ":")), index + 1;
      case '>' =>
        if twoCharacters {
          return Some(Token(Operator, ">=")), index + 2;
        }
        return Some(Token(Operator, ">")), index + 1;
      case '<' =>
        if twoCharacters {
          return Some(Token(Operator, "<=")), index + 2;
        }
        return Some(Token(Operator, "<")), index + 1;
      case '=' => return Some(Token(Operator, "=")), index + 1;
      case '+' => return Some(Token(Operator, "+")), index + 1;
      case '-' => return Some(Token(Operator, "-")), index + 1;
      case '*' => return Some(Token(Operator, "*")), index + 1;
      case '/' => return Some(Token(Operator, "/")), index + 1;
      case ';' => return Some(Token(Punctuation, ";")), index + 1;
      case ',' => return Some(Token(Punctuation, ",")), index + 1;
      case '(' => return Some(Token(Punctuation, "(")), index + 1;
      case ')' => return Some(Token(Punctuation, ")")), index + 1;
      case _ => return None, index;
    }

    /** factor() */
    method Factor()
      requires tokens.Some? && position <= |tokens.value|
      modifies this`position, this`errorFound, this`printed
      ensures State() == JFactor(tokens.value, old(State()))
      decreases |tokens.value| - position, 0
    {
      if errorFound || position >= |tokens.value| {
        return;
      }
      var cur := tokens.value[position];
      if cur.category == Ide || cur.category == Num {
        position := position + 1;
      } else if cur.category == Punctuation && cur.value == "(" {
        position := position + 1;
        Expression();
        if position < |tokens.value| && tokens.value[position].value == ")" {
          position := position + 1;
        } else {
          printed := printed + [P.ExpectedCloseParen];
          errorFound := true;
        }
      } else {
        printed := printed + [P.ExpectedFactor];
        errorFound := true;
      }
    }

    /** expression() */
    method Expression()
      requires tokens.Some? && position <= |tokens.value|
      modifies this`position, this`errorFound, this`printed
      ensures State() == JExpression(tokens.value, old(State()))
      decreases |tokens.value| - position, 2
    {
      if errorFound || position >= |tokens.value| {
        return;
      }
      Factor();
      while position < |tokens.value| && Contains(ArithText, tokens.value[position].value)
        invariant old(position) <= position <= |tokens.value|
        invariant JExprLoop(tokens.value, State()) == JExpression(tokens.value, old(State()))
        decreases |tokens.value| - position
      {
        position := position + 1;
        Factor();
      }
    }

    /** parse(input) up to the call of commandSequence: the input is echoed
        first, and `proceeds` says whether it goes on to the command sequence
        with the new tokens. */
    method Parse(input: string) returns (proceeds: bool)
      modifies this
      ensures proceeds <==> Start(input).Proceeds?
      ensures Start(input).Aborted? ==>
        && tokens == None
        && position == old(position) && labelsDefined == old(labelsDefined) && errorFound == old(errorFound)
        && printed == old(printed) + [P.Analyzing(input), P.InvalidCharacter(Start(input).ch), P.LexicalAnalysisAborted]
      ensures !Start(input).Aborted? ==>
        tokens == P.Tokenized(input) && position == 0 && labelsDefined == {} && !errorFound
      ensures Start(input).Answered? ==> printed == old(printed) + [P.Analyzing(input), Start(input).m]
      ensures Start(input).Proceeds? ==> tokens == Some(Start(input).toks) && printed == old(printed) + [P.Analyzing(input)]
    {
      printed := printed + [P.Analyzing(input)];
      tokens := Tokenize(input);
      if tokens == None {
        printed := printed + [P.LexicalAnalysisAborted];
        return false;
      }
      position := 0;
      labelsDefined := {};
      errorFound := false;
      var toks := tokens.value;
      if toks == [] {
        printed := printed + [P.EmptyInput];
        return false;
      }
      if |toks| == 1 && toks[0].value == "END" {
        printed := printed + [P.Success];
        return false;
      }
      return true;
    }
  }
}
