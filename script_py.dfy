/**
 * script.py with its module globals as a class: tokenize is a loop over the
 * input, and each parsing function updates `position`, `labels_defined`,
 * `error_found` and the printed output in place. Each method is proved to do
 * what the corresponding function of ScriptPyGrammar (or HandLexer.Lex)
 * describes.
 */
module ScriptPy {
  import opened Chars
  import opened Wrappers
  import opened HandLexer
  import opened TokenStream
  import opened ScriptPyGrammar

  /** tokenize(input_string): the token list, or None after printing the
      first invalid character. */
  method Tokenize(input: string) returns (tokens: Option<seq<Token>>, printed: seq<Message>)
    ensures tokens == Tokenized(input)
    ensures printed == if Lex(input).Lexed? then [] else [InvalidCharacter(Lex(input).bad)]
  {
    var tokenCollection: seq<Token> := [];
    var index: nat := 0;
    while index < |input|
      invariant index <= |input|
      invariant Lex(input) == Prepend(tokenCollection, LexFrom(input, index))
      decreases |input| - index
    {
      var ch := input[index];
      if IsWhitespace(ch) {
        LexStep(input, index, tokenCollection);
        index := index + 1;
        continue;
      }
      var accepted;
      accepted, tokenCollection, index := ReadToken(input, index, tokenCollection);
      if !accepted {
        LexStep(input, index, tokenCollection);
        return None, [InvalidCharacter(ch)];
      }
    }
    assert tokenCollection + [] == tokenCollection;
    return Some(tokenCollection), [];
  }

  /** The branches of tokenize's loop after the whitespace test: the token
      that starts at index is appended, or the character is rejected. */
  method ReadToken(s: string, index: nat, collection: seq<Token>) returns (accepted: bool, tokens: seq<Token>, next: nat)
    requires index < |s| && !IsWhitespace(s[index])
    ensures accepted <==> Accepted(s[index])
    ensures accepted ==> index < next <= |s| && Prepend(tokens, LexFrom(s, next)) == Prepend(collection, LexFrom(s, index))
    ensures !accepted ==> tokens == collection && next == index
  {
    var ch := s[index];
    if IsLetter(ch) {
      StepWord(s, index, collection);
      var word;
      word, next := ReadAlnum(s, index);
      var upper := ToUpper(word);
      if upper in Reserved {
        tokens := collection + [Token(Keyword, upper)];
      } else {
        tokens := collection + [Token(Ide, word)];
      }
      return true, tokens, next;
    } else if IsDigit(ch) {
      StepNumber(s, index, collection);
      var number;
      number, next := ReadNumber(s, index);
      return true, collection + [Token(Num, number)], next;
    } else if ch == ':' {
      if index + 1 < |s| && s[index + 1] == '=' {
        StepTwoCharacters(s, index, collection);
        return true, collection + [Token(Operator, ":=")], index + 2;
      } else {
        StepShortComparison(s, index, collection);
        return true, collection + [Token(Punctuation, ":")], index + 1;
      }
    } else if ch == '>' {
      if index + 1 < |s| && s[index + 1] == '=' {
        StepTwoCharacters(s, index, collection);
        return true, collection + [Token(Operator, ">=")], index + 2;
      } else {
        StepShortComparison(s, index, collection);
        return true, collection + [Token(Operator, ">")], index + 1;
      }
    } else if ch == '<' || IsArithmeticOrEquals(ch) {
      if ch == '<' && index + 1 < |s| && s[index + 1] == '=' {
        StepTwoCharacters(s, index, collection);
        return true, collection + [Token(Operator, "<=")], index + 2;
      } else if ch == '<' {
        StepShortComparison(s, index, collection);
        return true, collection + [Token(Operator, [ch])], index + 1;
      } else {
        StepOperator(s, index, collection);
        return true, collection + [Token(Operator, [ch])], index + 1;
      }
    } else if IsSeparator(ch) {
      StepSeparator(s, index, collection);
      return true, collection + [Token(Punctuation, [ch])], index + 1;
    }
    return false, collection, index;
  }



  /** The module globals of script.py and the lines printed by the current
      parse call. The globals are compared with ScriptPyGrammar.PState as
      PState(position, labelsDefined, errorFound, printed). */
  class ScriptModule {
    var tokens: Option<seq<Token>>
    var position: nat
    var labelsDefined: set<string>
    var errorFound: bool
    var printed: seq<Message>

    /** The globals as the module defines them. */
    constructor ()
      ensures tokens == Some([]) && position == 0 && labelsDefined == {} && !errorFound && printed == []
    {
      tokens := Some([]);
      position := 0;
      labelsDefined := {};
      errorFound := false;
      printed := [];
    }

    /** print(...) */
    method PrintLine(m: Message)
      modifies this`printed
      ensures printed == old(printed) + [m]
    {
      printed := printed + [m];
    }

    /** print(...) followed by `error_found = True`. */
    method PrintError(m: Message)
      modifies this`printed, this`errorFound
      ensures PState(position, labelsDefined, errorFound, printed) == Fail(old(PState(position, labelsDefined, errorFound, printed)), m)
    {
      printed := printed + [m];
      errorFound := true;
    }

    method Factor()
      requires tokens.Some? && position <= |tokens.value|
      modifies this`position, this`errorFound, this`printed
      ensures PState(position, labelsDefined, errorFound, printed) == ScriptPyGrammar.Factor(tokens.value, old(PState(position, labelsDefined, errorFound, printed)))
      decreases |tokens.value| - position, 0
    {
      if errorFound || position >= |tokens.value| {
        return;
      }
      var currentToken := tokens.value[position];
      if currentToken.category == Ide || currentToken.category == Num {
        position := position + 1;
      } else if currentToken.category == Punctuation && currentToken.value == "(" {
        position := position + 1;
        Expression();
        if Is(tokens.value, position, Punctuation, ")") {
          position := position + 1;
        } else {
          PrintError(ExpectedCloseParen);
        }
      } else {
        PrintError(ExpectedFactor);
      }
    }

    method Expression()
      requires tokens.Some? && position <= |tokens.value|
      modifies this`position, this`errorFound, this`printed
      ensures PState(position, labelsDefined, errorFound, printed) == ScriptPyGrammar.Expression(tokens.value, old(PState(position, labelsDefined, errorFound, printed)))
      decreases |tokens.value| - position, 1
    {
      if errorFound || position >= |tokens.value| {
        return;
      }
      Factor();
      ghost var afterFactor := PState(position, labelsDefined, errorFound, printed);
      while IsArith(tokens.value, position)
        invariant position <= |tokens.value|
        invariant ExprLoop(tokens.value, PState(position, labelsDefined, errorFound, printed)) == ExprLoop(tokens.value, afterFactor)
        decreases |tokens.value| - position
      {
        position := position + 1;
        Factor();
      }
    }

    method CommandSequence()
      requires tokens.Some? && position <= |tokens.value|
      modifies this`position, this`labelsDefined, this`errorFound, this`printed
      ensures PState(position, labelsDefined, errorFound, printed) == CommandSeq(tokens.value, old(PState(position, labelsDefined, errorFound, printed)))
    {
      while position < |tokens.value| && !errorFound && !IsEnd(tokens.value, position)
        invariant position <= |tokens.value|
        invariant CommandSeq(tokens.value, PState(position, labelsDefined, errorFound, printed)) == CommandSeq(tokens.value, old(PState(position, labelsDefined, errorFound, printed)))
        decreases |tokens.value| - position
      {
        Command();
        if errorFound {
          break;
        }
        if Is(tokens.value, position, Punctuation, ";") {
          position := position + 1;
        } else if position < |tokens.value| && !IsEnd(tokens.value, position) {
          break;
        } else {
          break;
        }
      }
    }

    method Command()
      requires tokens.Some? && position <= |tokens.value|
      modifies this`position, this`labelsDefined, this`errorFound, this`printed
      ensures PState(position, labelsDefined, errorFound, printed) == ScriptPyGrammar.Command(tokens.value, old(PState(position, labelsDefined, errorFound, printed)))
      decreases |tokens.value| - position, 0
    {
      if errorFound || position >= |tokens.value| {
        return;
      }
      var currentToken := tokens.value[position];
      if currentToken.category == Keyword {
        if currentToken.value == "LET" {
          position := position + 1;
          LetCommand();
        } else if currentToken.value == "GO" {
          position := position + 1;
          GoCommand();
        } else if currentToken.value == "READ" {
          position := position + 1;
          ReadCommand();
        } else if currentToken.value == "PRINT" {
          position := position + 1;
          PrintCommand();
        } else if currentToken.value == "IF" {
          position := position + 1;
          IfCommand();
        }
        // END and the other keywords: nothing is consumed
      } else if currentToken.category == Ide && Is(tokens.value, position + 1, Punctuation, ":") {
        var name := currentToken.value;
        if name in labelsDefined {
          PrintError(DuplicateLabel(name));
          return;
        }
        labelsDefined := labelsDefined + {name};
        position := position + 2;
        Command();
      } else {
        PrintError(InvalidCommand(currentToken.value));
      }
    }

    /** The LET branch of command, after the keyword. */
    method LetCommand()
      requires tokens.Some? && position <= |tokens.value| && !errorFound
      modifies this`position, this`errorFound, this`printed
      ensures PState(position, labelsDefined, errorFound, printed) == LetRule(tokens.value, old(PState(position, labelsDefined, errorFound, printed)))
    {
      if IsCat(tokens.value, position, Ide) {
        position := position + 1;
        if Is(tokens.value, position, Operator, ":=") {
          position := position + 1;
          Expression();
        } else {
          PrintError(ExpectedAssign);
        }
      } else {
        PrintError(ExpectedIdentifier);
      }
    }

    /** The GO branch of command, after the keyword. */
    method GoCommand()
      requires tokens.Some? && position <= |tokens.value| && !errorFound
      modifies this`position, this`errorFound, this`printed
      ensures PState(position, labelsDefined, errorFound, printed) == GoRule(tokens.value, old(PState(position, labelsDefined, errorFound, printed)))
    {
      if !Is(tokens.value, position, Keyword, "TO") {
        PrintError(ExpectedTo);
        return;
      }
      position := position + 1;
      if position < |tokens.value| {
        if tokens.value[position].category == Ide {
          position := position + 1;
        } else if tokens.value[position].category == Num {
          var numValueStr := tokens.value[position].value;
          position := position + 1;
          ComputedGo(numValueStr);
        } else {
          PrintError(ExpectedJumpTarget);
        }
      } else {
        PrintError(ExpectedJumpTarget);
      }
    }

    /** The rest of the GO branch after `GO TO n`: OF, the labels, the range check. */
    method ComputedGo(numValueStr: string)
      requires tokens.Some? && position <= |tokens.value| && !errorFound
      modifies this`position, this`errorFound, this`printed
      ensures PState(position, labelsDefined, errorFound, printed) == ComputedGoRule(tokens.value, old(PState(position, labelsDefined, errorFound, printed)), numValueStr)
    {
      if !Is(tokens.value, position, Keyword, "OF") {
        PrintError(ExpectedOf);
        return;
      }
      position := position + 1;
      if !IsCat(tokens.value, position, Ide) {
        PrintError(ExpectedLabelList);
        return;
      }
      var labelList: seq<string> := [];
      ghost var entry := PState(position, labelsDefined, errorFound, printed);
      while IsCat(tokens.value, position, Ide)
        invariant IsCat(tokens.value, position, Ide) && !errorFound
        invariant LabelLoop(tokens.value, PState(position, labelsDefined, errorFound, printed), |labelList|) == LabelLoop(tokens.value, entry, 0)
        decreases |tokens.value| - position
      {
        labelList := labelList + [tokens.value[position].value];
        position := position + 1;
        if Is(tokens.value, position, Punctuation, ",") {
          position := position + 1;
          if !IsCat(tokens.value, position, Ide) {
            PrintError(ExpectedLabelAfterComma);
            return;
          }
        } else {
          break;
        }
      }
      if !errorFound {
        match PyInt(numValueStr)
        case None =>
          PrintError(InvalidNumericValue(numValueStr));
        case Some(numValue) =>
          if numValue < 1 || numValue > |labelList| {
            PrintError(JumpIndexOutOfRange(numValue, |labelList|));
          }
      }
    }

    /** The READ branch of command, after the keyword. */
    method ReadCommand()
      requires tokens.Some? && position <= |tokens.value| && !errorFound
      modifies this`position, this`errorFound, this`printed
      ensures PState(position, labelsDefined, errorFound, printed) == ReadRule(tokens.value, old(PState(position, labelsDefined, errorFound, printed)))
    {
      if !IsCat(tokens.value, position, Ide) {
        PrintError(ExpectedReadIdent);
        return;
      }
      ghost var entry := PState(position, labelsDefined, errorFound, printed);
      while IsCat(tokens.value, position, Ide)
        invariant IsCat(tokens.value, position, Ide) && !errorFound
        invariant ReadLoop(tokens.value, PState(position, labelsDefined, errorFound, printed)) == ReadLoop(tokens.value, entry)
        decreases |tokens.value| - position
      {
        position := position + 1;
        if Is(tokens.value, position, Punctuation, ",") {
          position := position + 1;
          if !IsCat(tokens.value, position, Ide) {
            PrintError(ExpectedReadIdentAfterComma);
            return;
          }
        } else {
          break;
        }
      }
    }

    /** The PRINT branch of command, after the keyword. */
    method PrintCommand()
      requires tokens.Some? && position <= |tokens.value| && !errorFound
      modifies this`position, this`errorFound, this`printed
      ensures PState(position, labelsDefined, errorFound, printed) == PrintRule(tokens.value, old(PState(position, labelsDefined, errorFound, printed)))
    {
      if position >= |tokens.value| {
        PrintError(ExpectedExpressionAfterPrint);
        return;
      }
      Expression();
      if errorFound {
        return;
      }
      ghost var afterFirst := PState(position, labelsDefined, errorFound, printed);
      while Is(tokens.value, position, Punctuation, ",")
        invariant position <= |tokens.value| && !errorFound
        invariant PrintLoop(tokens.value, PState(position, labelsDefined, errorFound, printed)) == PrintLoop(tokens.value, afterFirst)
        decreases |tokens.value| - position
      {
        position := position + 1;
        if position < |tokens.value| {
          Expression();
          if errorFound {
            return;
          }
        } else {
          PrintError(ExpectedExpressionAfterComma);
          return;
        }
      }
    }

    /** The IF branch of command, after the keyword. */
    method IfCommand()
      requires tokens.Some? && position <= |tokens.value| && !errorFound
      modifies this`position, this`labelsDefined, this`errorFound, this`printed
      ensures PState(position, labelsDefined, errorFound, printed) == IfRule(tokens.value, old(PState(position, labelsDefined, errorFound, printed)))
      decreases |tokens.value| - position, 2
    {
      Expression();
      if errorFound {
        return;
      }
      if !IsRelOp(tokens.value, position) {
        PrintError(ExpectedRelOp);
        return;
      }
      position := position + 1;
      Expression();
      if errorFound {
        return;
      }
      if !Is(tokens.value, position, Keyword, "THEN") {
        PrintError(ExpectedThen);
        return;
      }
      position := position + 1;
      ThenElse();
    }

    /** The rest of the IF branch after THEN: a command, ELSE, a command. */
    method ThenElse()
      requires tokens.Some? && position <= |tokens.value| && !errorFound
      modifies this`position, this`labelsDefined, this`errorFound, this`printed
      ensures PState(position, labelsDefined, errorFound, printed) == ScriptPyGrammar.ThenElse(tokens.value, old(PState(position, labelsDefined, errorFound, printed)))
      decreases |tokens.value| - position, 1
    {
      Command();
      if errorFound {
        return;
      }
      if Is(tokens.value, position, Keyword, "ELSE") {
        position := position + 1;
        Command();
      } else {
        PrintError(ExpectedElse);
      }
    }

    /** parse(input_string). `printed` starts with the echo of the input: it
        holds what this call prints. After a lexical error the other globals
        keep their values. */
    method Parse(input: string)
      modifies this
      ensures tokens == Tokenized(input)
      ensures PState(position, labelsDefined, errorFound, printed) == ParseInput(input, old(PState(position, labelsDefined, errorFound, printed)))
    {
      ghost var prior := PState(position, labelsDefined, errorFound, printed);
      printed := [Analyzing(input)];
      var lexOut;
      tokens, lexOut := Tokenize(input);
      printed := printed + lexOut;
      if tokens.None? {
        PrintLine(LexicalAnalysisAborted);
        return;
      }
      ghost var toks := tokens.value;
      assert ParseInput(input, prior) == ParseTokens(toks, [Analyzing(input)]);
      position := 0;
      labelsDefined := {};
      errorFound := false;
      if tokens.value == [] {
        PrintLine(EmptyInput);
        return;
      }
      if |tokens.value| == 1 && tokens.value[0].category == Keyword && tokens.value[0].value == "END" {
        PrintLine(Success);
        return;
      }
      assert printed == [Analyzing(input)];
      ghost var start := PState(position, labelsDefined, errorFound, printed);
      assert start == Fresh.(out := [Analyzing(input)]);
      CommandSequence();
      Conclude();
    }

    /** The end of parse once command_sequence has returned: the verdict line. */
    method Conclude()
      requires tokens.Some? && position <= |tokens.value|
      modifies this`position, this`printed
      ensures PState(position, labelsDefined, errorFound, printed) == ScriptPyGrammar.Conclude(tokens.value, old(PState(position, labelsDefined, errorFound, printed)))
    {
      if !errorFound {
        if IsEnd(tokens.value, position) {
          position := position + 1;
          if position == |tokens.value| {
            PrintLine(Success);
          } else {
            PrintLine(ExtraTokensAfterEnd(tokens.value[position].value));
          }
        } else {
          if position >= |tokens.value| && !errorFound {
            PrintLine(ExpectedEndAtEof);
          } else if !errorFound {
            PrintLine(ExpectedEndOrInvalidCommand(tokens.value[position].value));
          }
        }
      } else if errorFound {
        PrintLine(FailedAfterEarlierErrors);
      }
    }
  }
}
