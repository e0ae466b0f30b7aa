/**
 * LexerParser of Main.java as a class: the lexer loop and the recursive
 * descent methods update the fields in place, and each method is proved to
 * do what the corresponding function of MainGrammar (or HandLexer.Lex)
 * describes. The parser fields are compared with MainGrammar.State as
 * State(parserPosition, labelsDefined, errorFound, diagnostics).
 */
module MainJava {
  import opened Chars
  import opened Wrappers
  import opened HandLexer
  import opened TokenStream
  import opened MainGrammar

  class LexerParser {
    var currentInputString: string
    var lexerIndex: nat
    var tokens: seq<Token>
    var parserPosition: nat
    var labelsDefined: set<string>
    var errorFound: bool
    /** The error messages printed to standard error by the current parse call. */
    var diagnostics: seq<Diag>

    constructor ()
      ensures labelsDefined == {} && tokens == [] && parserPosition == 0 && !errorFound
      ensures diagnostics == [] && currentInputString == "" && lexerIndex == 0
    {
      labelsDefined := {};
      tokens := [];
      parserPosition := 0;
      errorFound := false;
      diagnostics := [];
      currentInputString := "";
      lexerIndex := 0;
    }

    /** tokenize: one pass over the input, keeping the tokens read so far in
        `tokens`; stops at the first character no rule accepts. */
    method Tokenize() returns (ok: bool)
      modifies this`tokens, this`lexerIndex, this`errorFound, this`diagnostics
      ensures ok <==> Lex(currentInputString).Lexed?
      ensures ok ==> tokens == Lex(currentInputString).tokens && lexerIndex == |currentInputString|
      ensures ok ==> errorFound == old(errorFound) && diagnostics == old(diagnostics)
      ensures !ok ==> var bad := Lex(currentInputString);
        && errorFound && lexerIndex == bad.at
        && diagnostics == old(diagnostics) + [Diag(LexicalError(bad.bad), bad.at)]
    {
      var s := currentInputString;
      tokens := [];
      lexerIndex := 0;
      while lexerIndex < |s|
        invariant lexerIndex <= |s|
        invariant Lex(s) == Prepend(tokens, LexFrom(s, lexerIndex))
        modifies this`tokens, this`lexerIndex
        decreases |s| - lexerIndex
      {
        if IsWhitespace(s[lexerIndex]) {
          LexStep(s, lexerIndex, tokens);
          lexerIndex := lexerIndex + 1;
          continue;
        }
        var accepted := ReadToken();
        if !accepted {
          break;
        }
      }
      if lexerIndex < |s| {
        LexStep(s, lexerIndex, tokens);
        diagnostics := diagnostics + [Diag(LexicalError(s[lexerIndex]), lexerIndex)];
        errorFound := true;
        return false;
      }
      return true;
    }

    /** The branches of tokenize's loop after the whitespace test: appends the
        token that starts at lexerIndex, or reports that the character there
        is rejected and changes nothing. */
    method ReadToken() returns (accepted: bool)
      requires lexerIndex < |currentInputString| && !IsWhitespace(currentInputString[lexerIndex])
      modifies this`tokens, this`lexerIndex
      ensures accepted <==> Accepted(currentInputString[old(lexerIndex)])
      ensures accepted ==> old(lexerIndex) < lexerIndex <= |currentInputString|
      ensures accepted ==>
        Prepend(tokens, LexFrom(currentInputString, lexerIndex)) == Prepend(old(tokens), LexFrom(currentInputString, old(lexerIndex)))
      ensures !accepted ==> tokens == old(tokens) && lexerIndex == old(lexerIndex)
    {
      var s := currentInputString;
      ghost var i0, before := lexerIndex, tokens;
      var c := s[lexerIndex];
      if IsLetter(c) {
        StepWord(s, i0, before);
        var word := ReadLettersAndDigits();
        var upper := ToUpper(word);
        if upper in Reserved {
          tokens := tokens + [Token(Keyword, upper)];
        } else {
          tokens := tokens + [Token(Ide, word)];
        }
        return true;
      }
      if IsDigit(c) {
        StepNumber(s, i0, before);
        var number := ReadDigits();
        tokens := tokens + [Token(Num, number)];
        return true;
      }
      if c == ':' {
        if lexerIndex + 1 < |s| && s[lexerIndex + 1] == '=' {
          StepTwoCharacters(s, i0, before);
          tokens := tokens + [Token(Operator, ":=")];
          lexerIndex := lexerIndex + 2;
        } else {
          StepShortComparison(s, i0, before);
          tokens := tokens + [Token(Punctuation, ":")];
          lexerIndex := lexerIndex + 1;
        }
        return true;
      }
      if c == '>' {
        if lexerIndex + 1 < |s| && s[lexerIndex + 1] == '=' {
          StepTwoCharacters(s, i0, before);
          tokens := tokens + [Token(Operator, ">=")];
          lexerIndex := lexerIndex + 2;
        } else {
          StepShortComparison(s, i0, before);
          tokens := tokens + [Token(Operator, ">")];
          lexerIndex := lexerIndex + 1;
        }
        return true;
      }
      if c == '<' {
        if lexerIndex + 1 < |s| && s[lexerIndex + 1] == '=' {
          StepTwoCharacters(s, i0, before);
          tokens := tokens + [Token(Operator, "<=")];
          lexerIndex := lexerIndex + 2;
        } else {
          StepShortComparison(s, i0, before);
          tokens := tokens + [Token(Operator, "<")];
          lexerIndex := lexerIndex + 1;
        }
        return true;
      }
      if IsArithmeticOrEquals(c) {
        StepOperator(s, i0, before);
        tokens := tokens + [Token(Operator, [c])];
        lexerIndex := lexerIndex + 1;
        return true;
      }
      if IsSeparator(c) {
        StepSeparator(s, i0, before);
        tokens := tokens + [Token(Punctuation, [c])];
        lexerIndex := lexerIndex + 1;
        return true;
      }
      return false;
    }

    /** The inner loop of tokenize for a word: the letter/digit run at lexerIndex. */
    method ReadLettersAndDigits() returns (word: string)
      requires lexerIndex <= |currentInputString|
      modifies this`lexerIndex
      ensures lexerIndex == AlnumEnd(currentInputString, old(lexerIndex))
      ensures word == currentInputString[old(lexerIndex)..lexerIndex]
    {
      var s := currentInputString;
      word := "";
      while lexerIndex < |s| && IsLetterOrDigit(s[lexerIndex])
        invariant old(lexerIndex) <= lexerIndex <= |s|
        invariant word == s[old(lexerIndex)..lexerIndex]
        invariant AlnumEnd(s, lexerIndex) == AlnumEnd(s, old(lexerIndex))
        decreases |s| - lexerIndex
      {
        word := word + [s[lexerIndex]];
        lexerIndex := lexerIndex + 1;
      }
    }

    /** The inner loop of tokenize for a number: the digit run at lexerIndex. */
    method ReadDigits() returns (number: string)
      requires lexerIndex <= |currentInputString|
      modifies this`lexerIndex
      ensures lexerIndex == DigitEnd(currentInputString, old(lexerIndex))
      ensures number == currentInputString[old(lexerIndex)..lexerIndex]
    {
      var s := currentInputString;
      number := "";
      while lexerIndex < |s| && IsDigit(s[lexerIndex])
        invariant old(lexerIndex) <= lexerIndex <= |s|
        invariant number == s[old(lexerIndex)..lexerIndex]
        invariant DigitEnd(s, lexerIndex) == DigitEnd(s, old(lexerIndex))
        decreases |s| - lexerIndex
      {
        number := number + [s[lexerIndex]];
        lexerIndex := lexerIndex + 1;
      }
    }

    /** reportError: prints only the first error of a parse; always raises the flag. */
    method ReportError(kind: ErrorKind)
      modifies this`errorFound, this`diagnostics
      ensures State(parserPosition, labelsDefined, errorFound, diagnostics) == Report(old(State(parserPosition, labelsDefined, errorFound, diagnostics)), kind)
    {
      if !errorFound {
        diagnostics := diagnostics + [Diag(kind, parserPosition)];
      }
      errorFound := true;
    }

    /** consumeToken: the token under the cursor, which is then passed. */
    method ConsumeToken() returns (t: Option<Token>)
      modifies this`parserPosition
      ensures old(parserPosition) < |tokens| ==> t == Some(tokens[old(parserPosition)]) && parserPosition == old(parserPosition) + 1
      ensures old(parserPosition) >= |tokens| ==> t == None && parserPosition == old(parserPosition)
    {
      if parserPosition < |tokens| {
        t := Some(tokens[parserPosition]);
        parserPosition := parserPosition + 1;
      } else {
        t := None;
      }
    }

    /** matchAndConsume: passes the next token when both its category and value match. */
    method MatchAndConsume(category: Category, value: string) returns (matched: bool)
      modifies this`parserPosition
      ensures matched == Is(tokens, old(parserPosition), category, value)
      ensures parserPosition == old(parserPosition) + (if matched then 1 else 0)
    {
      matched := Is(tokens, parserPosition, category, value);
      if matched {
        var _ := ConsumeToken();
      }
    }

    /** matchCategoryAndConsume: passes the next token when its category matches. */
    method MatchCategoryAndConsume(category: Category) returns (matched: bool)
      modifies this`parserPosition
      ensures matched == IsCat(tokens, old(parserPosition), category)
      ensures parserPosition == old(parserPosition) + (if matched then 1 else 0)
    {
      matched := IsCat(tokens, parserPosition, category);
      if matched {
        var _ := ConsumeToken();
      }
    }

    method Factor()
      requires parserPosition <= |tokens|
      modifies this`parserPosition, this`errorFound, this`diagnostics
      ensures State(parserPosition, labelsDefined, errorFound, diagnostics) == MainGrammar.Factor(tokens, old(State(parserPosition, labelsDefined, errorFound, diagnostics)))
      decreases |tokens| - parserPosition, 0
    {
      if errorFound || parserPosition >= |tokens| {
        return;
      }
      var current := tokens[parserPosition];
      if current.category == Ide || current.category == Num {
        var _ := ConsumeToken();
      } else {
        var open := MatchAndConsume(Punctuation, "(");
        if open {
          Expression();
          var close := MatchAndConsume(Punctuation, ")");
          if !close {
            ReportError(MissingCloseParen);
          }
        } else {
          ReportError(ExpectedFactor);
        }
      }
    }

    method Expression()
      requires parserPosition <= |tokens|
      modifies this`parserPosition, this`errorFound, this`diagnostics
      ensures State(parserPosition, labelsDefined, errorFound, diagnostics) == MainGrammar.Expression(tokens, old(State(parserPosition, labelsDefined, errorFound, diagnostics)))
      decreases |tokens| - parserPosition, 2
    {
      if errorFound || parserPosition >= |tokens| {
        return;
      }
      Factor();
      ghost var afterFactor := State(parserPosition, labelsDefined, errorFound, diagnostics);
      while !errorFound && IsArith(tokens, parserPosition)
        invariant old(parserPosition) <= parserPosition <= |tokens|
        invariant ExprTail(tokens, State(parserPosition, labelsDefined, errorFound, diagnostics)) == ExprTail(tokens, afterFactor)
        decreases |tokens| - parserPosition
      {
        var _ := ConsumeToken();
        Factor();
      }
    }

    method CommandSequence()
      requires parserPosition <= |tokens|
      modifies this`parserPosition, this`labelsDefined, this`errorFound, this`diagnostics
      ensures State(parserPosition, labelsDefined, errorFound, diagnostics) == CommandSeq(tokens, old(State(parserPosition, labelsDefined, errorFound, diagnostics)))
    {
      while !errorFound && parserPosition < |tokens| && !IsEnd(tokens, parserPosition)
        invariant parserPosition <= |tokens|
        invariant CommandSeq(tokens, State(parserPosition, labelsDefined, errorFound, diagnostics)) == CommandSeq(tokens, old(State(parserPosition, labelsDefined, errorFound, diagnostics)))
        decreases |tokens| - parserPosition
      {
        ghost var entry := State(parserPosition, labelsDefined, errorFound, diagnostics);
        Command();
        if errorFound {
          break;
        }
        if Is(tokens, parserPosition, Punctuation, ";") {
          var _ := ConsumeToken();
          if parserPosition >= |tokens| || IsEnd(tokens, parserPosition) {
            break;
          }
        } else if parserPosition < |tokens| && !IsEnd(tokens, parserPosition) {
          ReportError(ExpectedSemicolonOrEnd);
          break;
        } else {
          break;
        }
      }
    }

    /** The LET case of command, after the keyword. */
    method LetCommand()
      requires parserPosition <= |tokens| && !errorFound
      modifies this`parserPosition, this`errorFound, this`diagnostics
      ensures State(parserPosition, labelsDefined, errorFound, diagnostics) == LetRule(tokens, old(State(parserPosition, labelsDefined, errorFound, diagnostics)))
    {
      var ide := MatchCategoryAndConsume(Ide);
      if !ide {
        ReportError(ExpectedIdentAfterLet);
        return;
      }
      var assign := MatchAndConsume(Operator, ":=");
      if !assign {
        ReportError(ExpectedAssign);
        return;
      }
      Expression();
    }

    /** The GO case of command, after the keyword. */
    method GoCommand()
      requires parserPosition <= |tokens| && !errorFound
      modifies this`parserPosition, this`errorFound, this`diagnostics
      ensures State(parserPosition, labelsDefined, errorFound, diagnostics) == GoRule(tokens, old(State(parserPosition, labelsDefined, errorFound, diagnostics)))
    {
      var to := MatchAndConsume(Keyword, "TO");
      if !to {
        ReportError(ExpectedTo);
        return;
      }
      if parserPosition >= |tokens| {
        ReportError(ExpectedJumpTarget);
        return;
      }
      var target := tokens[parserPosition];
      if target.category == Ide {
        var _ := ConsumeToken();
      } else if target.category == Num {
        var numeral := target.value;
        var _ := ConsumeToken();
        ComputedGo(numeral);
      } else {
        ReportError(ExpectedJumpTarget);
      }
    }

    /** The rest of the GO case after `GO TO n`: `OF`, the label list, and the range check. */
    method ComputedGo(numeral: string)
      requires parserPosition <= |tokens| && !errorFound
      modifies this`parserPosition, this`errorFound, this`diagnostics
      ensures State(parserPosition, labelsDefined, errorFound, diagnostics) == ComputedGoRule(tokens, old(State(parserPosition, labelsDefined, errorFound, diagnostics)), numeral)
    {
      var of := MatchAndConsume(Keyword, "OF");
      if !of {
        ReportError(ExpectedOf);
        return;
      }
      if !IsCat(tokens, parserPosition, Ide) {
        ReportError(ExpectedLabelList);
        return;
      }
      var labelList := [tokens[parserPosition].value];
      var _ := ConsumeToken();
      ghost var afterFirst := State(parserPosition, labelsDefined, errorFound, diagnostics);
      // while (matchAndConsume(",")): the comma test, then its consumption
      while Is(tokens, parserPosition, Punctuation, ",")
        invariant afterFirst.pos <= parserPosition <= |tokens| && !errorFound
        invariant LabelTail(tokens, State(parserPosition, labelsDefined, errorFound, diagnostics), |labelList|) == LabelTail(tokens, afterFirst, 1)
        decreases |tokens| - parserPosition
      {
        var _ := ConsumeToken();
        if !IsCat(tokens, parserPosition, Ide) {
          ReportError(ExpectedLabelAfterComma);
          return;
        }
        labelList := labelList + [tokens[parserPosition].value];
        var _ := ConsumeToken();
      }
      match ParseInt(numeral)
      case None =>
        ReportError(InvalidNumberFormat(numeral));
      case Some(n) =>
        if n < 1 || n > |labelList| {
          ReportError(JumpIndexOutOfRange(n, |labelList|));
        }
    }

    /** The READ case of command, after the keyword. */
    method ReadCommand()
      requires parserPosition <= |tokens| && !errorFound
      modifies this`parserPosition, this`errorFound, this`diagnostics
      ensures State(parserPosition, labelsDefined, errorFound, diagnostics) == ReadRule(tokens, old(State(parserPosition, labelsDefined, errorFound, diagnostics)))
    {
      if !IsCat(tokens, parserPosition, Ide) {
        ReportError(ExpectedReadIdent);
        return;
      }
      var _ := ConsumeToken();
      ghost var afterFirst := State(parserPosition, labelsDefined, errorFound, diagnostics);
      while Is(tokens, parserPosition, Punctuation, ",")
        invariant afterFirst.pos <= parserPosition <= |tokens| && !errorFound
        invariant ReadTail(tokens, State(parserPosition, labelsDefined, errorFound, diagnostics)) == ReadTail(tokens, afterFirst)
        decreases |tokens| - parserPosition
      {
        var _ := ConsumeToken();
        if !IsCat(tokens, parserPosition, Ide) {
          ReportError(ExpectedReadIdentAfterComma);
          return;
        }
        var _ := ConsumeToken();
      }
    }

    /** The PRINT case of command, after the keyword. */
    method PrintCommand()
      requires parserPosition <= |tokens|
      modifies this`parserPosition, this`errorFound, this`diagnostics
      ensures State(parserPosition, labelsDefined, errorFound, diagnostics) == PrintRule(tokens, old(State(parserPosition, labelsDefined, errorFound, diagnostics)))
    {
      Expression();
      if errorFound {
        return;
      }
      ghost var afterFirst := State(parserPosition, labelsDefined, errorFound, diagnostics);
      while Is(tokens, parserPosition, Punctuation, ",")
        invariant afterFirst.pos <= parserPosition <= |tokens| && !errorFound
        invariant PrintTail(tokens, State(parserPosition, labelsDefined, errorFound, diagnostics)) == PrintTail(tokens, afterFirst)
        decreases |tokens| - parserPosition
      {
        var _ := ConsumeToken();
        Expression();
        if errorFound {
          return;
        }
      }
    }

    /** The IF case of command, after the keyword. */
    method IfCommand()
      requires parserPosition <= |tokens|
      modifies this`parserPosition, this`labelsDefined, this`errorFound, this`diagnostics
      ensures State(parserPosition, labelsDefined, errorFound, diagnostics) == IfRule(tokens, old(State(parserPosition, labelsDefined, errorFound, diagnostics)))
      decreases |tokens| - parserPosition, 4
    {
      Expression();
      if errorFound {
        return;
      }
      if !IsRelOp(tokens, parserPosition) {
        ReportError(ExpectedRelOp);
        return;
      }
      var _ := ConsumeToken();
      Expression();
      if errorFound {
        return;
      }
      var thenKw := MatchAndConsume(Keyword, "THEN");
      if !thenKw {
        ReportError(ExpectedThen);
        return;
      }
      ThenElse();
    }

    /** The rest of the IF case after THEN: a command, ELSE, a command. */
    method ThenElse()
      requires parserPosition <= |tokens|
      modifies this`parserPosition, this`labelsDefined, this`errorFound, this`diagnostics
      ensures State(parserPosition, labelsDefined, errorFound, diagnostics) == MainGrammar.ThenElse(tokens, old(State(parserPosition, labelsDefined, errorFound, diagnostics)))
      decreases |tokens| - parserPosition, 4
    {
      Command();
      if errorFound {
        return;
      }
      if Is(tokens, parserPosition, Keyword, "ELSE") {
        var _ := ConsumeToken();
        Command();
      } else {
        ReportError(ExpectedElse);
      }
    }

    method Command()
      requires parserPosition <= |tokens|
      modifies this`parserPosition, this`labelsDefined, this`errorFound, this`diagnostics
      ensures State(parserPosition, labelsDefined, errorFound, diagnostics) == MainGrammar.Command(tokens, old(State(parserPosition, labelsDefined, errorFound, diagnostics)))
      decreases |tokens| - parserPosition, 3
    {
      if errorFound || parserPosition >= |tokens| {
        return;
      }
      var current := tokens[parserPosition];
      if current.category == Ide && Is(tokens, parserPosition + 1, Punctuation, ":") {
        var name := current.value;
        if name in labelsDefined {
          ReportError(DuplicateLabel(name));
          return;
        }
        labelsDefined := labelsDefined + {name};
        var _ := ConsumeToken();
        var _ := ConsumeToken();
        Command();
        return;
      }
      if current.category != Keyword {
        ReportError(ExpectedCommandKeyword);
        return;
      }
      var keyword := current.value;
      var _ := ConsumeToken();
      if keyword == "LET" {
        LetCommand();
      } else if keyword == "GO" {
        GoCommand();
      } else if keyword == "READ" {
        ReadCommand();
      } else if keyword == "PRINT" {
        PrintCommand();
      } else if keyword == "IF" {
        IfCommand();
      } else if keyword == "END" {
        ReportError(UnexpectedEnd);
        parserPosition := parserPosition - 1;
      } else {
        ReportError(UnrecognizedKeyword(keyword));
      }
    }

    /** parse: clears the parser fields, lexes, and runs the grammar; the
        result says whether success was announced. */
    method Parse(input: string) returns (accepted: bool)
      modifies this
      ensures accepted == ParseInput(input).accepted
      ensures State(parserPosition, labelsDefined, errorFound, diagnostics) == ParseInput(input).final
      ensures currentInputString == input
      ensures Lex(input).Lexed? ==> tokens == Lex(input).tokens
    {
      currentInputString := input;
      tokens := [];
      parserPosition := 0;
      labelsDefined := {};
      errorFound := false;
      diagnostics := [];
      lexerIndex := 0;
      var lexed := Tokenize();
      if !lexed {
        return false;
      }
      if tokens == [] && !TrimsToEmpty(currentInputString) && !errorFound {
        diagnostics := diagnostics + [Diag(NoTokensForNonBlankInput, 0)];
        return false;
      }
      if tokens == [] {
        ReportError(EmptyProgram);
        return false;
      }
      if tokens == [EndToken] {
        return true;
      }
      assert ParseInput(input) == ParseTokens(tokens);
      CommandSequence();
      assert State(parserPosition, labelsDefined, errorFound, diagnostics) == CommandSeq(tokens, Fresh);
      if !errorFound {
        if IsEnd(tokens, parserPosition) {
          var _ := ConsumeToken();
          if parserPosition >= |tokens| {
            accepted := true;
          } else {
            ReportError(ExtraTokensAfterEnd);
            accepted := false;
          }
        } else {
          if parserPosition >= |tokens| {
            ReportError(ExpectedEndAtEof);
          } else {
            ReportError(ExpectedEndOrInvalidCommand);
          }
          accepted := false;
        }
      } else {
        accepted := false;
      }
    }
  }
}
