/**
 * SingleFileParser.java as a class: `tokens` and `currentPos` are its state,
 * tokenize is the nested loop over the input and the rule table, and each
 * parse method moves `currentPos`. A thrown ParseException is the returned
 * error; the cursor is left where the exception was thrown. Every method is
 * proved to end as the matching function of SingleFileGrammar says.
 */
module SingleFileJava {
  import opened Wrappers
  import opened TableLexer
  import opened SingleFileGrammar

  /** A method's normal return (no error) or throw, as an Outcome. */
  function Observed(pos: nat, thrown: Option<ParseError>): Result {
    if thrown.None? then Ok(pos) else Thrown(thrown.value, pos)
  }

  predicate IsExprStartKind(k: Kind) {
    k == Identifier || k == Number || k == LParen
  }

  class SingleFileParser {
    var tokens: seq<Token>
    var currentPos: nat

    constructor()
      ensures tokens == [] && currentPos == 0
    {
      tokens := [];
      currentPos := 0;
    }

    /** tokenize: for each input position, the first rule of the table that
        matches there; a position no rule matches throws LexerException. */
    method Tokenize(input: string) returns (result: Lexed)
      ensures result == TableLexer.Tokenize(JavaRegex, input)
    {
      var generatedTokens: seq<Token> := [];
      var currentInputPos := 0;
      while currentInputPos < |input|
        invariant currentInputPos <= |input|
        invariant TableLexer.Tokenize(JavaRegex, input) == Prepend(generatedTokens, TokenizeFrom(JavaRegex, input, currentInputPos))
        decreases |input| - currentInputPos
      {
        TokenizeStep(JavaRegex, input, currentInputPos, generatedTokens);
        ghost var start, before := currentInputPos, generatedTokens;
        var matched := false;
        var k := 0;
        while k < |Specs|
          invariant k <= |Specs|
          invariant FirstMatch(JavaRegex, input, start, 0) == FirstMatch(JavaRegex, input, start, k)
          invariant currentInputPos == start && generatedTokens == before && !matched
          decreases |Specs| - k
        {
          var spec := Specs[k];
          var m := MatchEnd(JavaRegex, spec.pattern, input, currentInputPos);
          if m.MatchTo? {
            assert FirstMatch(JavaRegex, input, start, 0) == Hit(spec.kind, m.end);
            var text := input[currentInputPos..m.end];
            if spec.kind == Identifier {
              if text in Keywords(JavaRegex) {
                generatedTokens := generatedTokens + [Token(Keyword(text), text)];
              } else {
                generatedTokens := generatedTokens + [Token(Identifier, text)];
              }
            } else if spec.kind != Whitespace {
              generatedTokens := generatedTokens + [Token(spec.kind, text)];
            }
            assert generatedTokens == before + Emitted(JavaRegex, spec.kind, text);
            currentInputPos := m.end;
            matched := true;
            break;
          }
          k := k + 1;
        }
        if !matched {
          return LexerError(currentInputPos, input[currentInputPos]);
        }
      }
      assert generatedTokens + [] == generatedTokens;
      return Tokens(generatedTokens);
    }

    /** currentToken: the token under the cursor, or null past the end. */
    function CurrentToken(): (t: Option<Token>)
      reads this
      ensures t.Some? <==> currentPos < |tokens|
      ensures t.Some? ==> t.value == tokens[currentPos]
    {
      if currentPos < |tokens| then Some(tokens[currentPos]) else None
    }

    /** matchToken: consume the current token exactly when it has the expected type. */
    method MatchToken(expectedType: Kind) returns (matched: bool)
      modifies this`currentPos
      ensures matched == At(tokens, old(currentPos), expectedType)
      ensures currentPos == if matched then old(currentPos) + 1 else old(currentPos)
    {
      var token := CurrentToken();
      if token.Some? && token.value.kind == expectedType {
        currentPos := currentPos + 1;
        return true;
      }
      return false;
    }

    method Parse(inputCode: string) returns (verdict: Verdict)
      modifies this
      ensures verdict == SingleFileGrammar.Parse(inputCode)
      ensures verdict.LexFailed? ==> tokens == old(tokens) && currentPos == old(currentPos)
      ensures !verdict.LexFailed? ==> TableLexer.Tokenize(JavaRegex, inputCode) == Tokens(tokens)
      ensures verdict.Rejected? ==> currentPos == verdict.pos
      ensures verdict.Accepted? ==> currentPos == |tokens|
    {
      var lexed := Tokenize(inputCode);
      if lexed.LexerError? {
        return LexFailed(lexed.at, lexed.ch);
      }
      tokens := lexed.tokens;
      currentPos := 0;
      var thrown := ParseProgram();
      if thrown.Some? {
        return Rejected(thrown.value, currentPos);
      }
      return Accepted;
    }

    method ParseProgram() returns (thrown: Option<ParseError>)
      requires currentPos == 0
      modifies this`currentPos
      ensures Observed(currentPos, thrown) == Program(tokens)
    {
      thrown := ParseCommandSequence();
      if thrown.Some? { return; }
      var ended := MatchToken(EndKw);
      if !ended {
        return Some(ExpectedEnd);
      }
      if CurrentToken().Some? {
        return Some(ExtraTokensAfterEnd);
      }
    }

    method ParseCommandSequence() returns (thrown: Option<ParseError>)
      requires currentPos <= |tokens|
      modifies this`currentPos
      ensures Observed(currentPos, thrown) == CommandSequence(tokens, old(currentPos))
      decreases |tokens| - currentPos, 11
    {
      thrown := ParseCommand();
      if thrown.Some? { return; }
      thrown := ParseSequenceTail();
    }

    method ParseSequenceTail() returns (thrown: Option<ParseError>)
      requires currentPos <= |tokens|
      modifies this`currentPos
      ensures Observed(currentPos, thrown) == SequenceTail(tokens, old(currentPos))
      decreases |tokens| - currentPos, 10
    {
      var token := CurrentToken();
      if token.Some? && token.value.kind == Semi {
        var semi := MatchToken(Semi);
        thrown := ParseCommand();
        if thrown.Some? { return; }
        thrown := ParseSequenceTail();
        return;
      }
      return None;
    }

    method ParseCommand() returns (thrown: Option<ParseError>)
      requires currentPos <= |tokens|
      modifies this`currentPos
      ensures Observed(currentPos, thrown) == Command(tokens, old(currentPos))
      decreases |tokens| - currentPos, 9
    {
      var token := CurrentToken();
      if token.None? { return None; }
      var kind := token.value.kind;
      if kind == LetKw {
        thrown := ParseAssignment();
      } else if kind == GoKw {
        thrown := ParseJump();
      } else if kind == ReadKw {
        thrown := ParseRead();
      } else if kind == PrintKw {
        thrown := ParsePrint();
      } else if kind == IfKw {
        thrown := ParseDecision();
      } else if kind == Identifier && currentPos + 1 < |tokens| && tokens[currentPos + 1].kind == Colon {
        var labelMatched := MatchToken(Identifier);
        var colon := MatchToken(Colon);
        thrown := ParseCommand();
      } else {
        // the empty command before END, ELSE, THEN or `;`, and any other token
        thrown := None;
      }
    }

    method ParseAssignment() returns (thrown: Option<ParseError>)
      requires currentPos <= |tokens|
      modifies this`currentPos
      ensures Observed(currentPos, thrown) == Assignment(tokens, old(currentPos))
    {
      var ok := MatchToken(LetKw);
      if !ok { return Some(ExpectedLet); }
      ok := MatchToken(Identifier);
      if !ok { return Some(ExpectedIdentifierAfterLet); }
      ok := MatchToken(Assign);
      if !ok { return Some(ExpectedAssign); }
      thrown := ParseExpression();
    }

    method ParseExpression() returns (thrown: Option<ParseError>)
      requires currentPos <= |tokens|
      modifies this`currentPos
      ensures Observed(currentPos, thrown) == Expression(tokens, old(currentPos))
      decreases |tokens| - currentPos, 5
    {
      thrown := ParseTerm();
      if thrown.Some? { return; }
      thrown := ParseExpressionTail();
    }

    method ParseExpressionTail() returns (thrown: Option<ParseError>)
      requires currentPos <= |tokens|
      modifies this`currentPos
      ensures Observed(currentPos, thrown) == ExpressionTail(tokens, old(currentPos))
      decreases |tokens| - currentPos, 4
    {
      var token := CurrentToken();
      if token.Some? {
        if token.value.kind == Plus || token.value.kind == Minus {
          var op := MatchToken(token.value.kind);
          thrown := ParseTerm();
          if thrown.Some? { return; }
          thrown := ParseExpressionTail();
          return;
        }
      }
      return None;
    }

    method ParseTerm() returns (thrown: Option<ParseError>)
      requires currentPos <= |tokens|
      modifies this`currentPos
      ensures Observed(currentPos, thrown) == Term(tokens, old(currentPos))
      decreases |tokens| - currentPos, 3
    {
      thrown := ParseFactor();
      if thrown.Some? { return; }
      thrown := ParseTermTail();
    }

    method ParseTermTail() returns (thrown: Option<ParseError>)
      requires currentPos <= |tokens|
      modifies this`currentPos
      ensures Observed(currentPos, thrown) == TermTail(tokens, old(currentPos))
      decreases |tokens| - currentPos, 2
    {
      var token := CurrentToken();
      if token.Some? {
        if token.value.kind == Star || token.value.kind == Slash {
          var op := MatchToken(token.value.kind);
          thrown := ParseFactor();
          if thrown.Some? { return; }
          thrown := ParseTermTail();
          return;
        }
      }
      return None;
    }

    method ParseFactor() returns (thrown: Option<ParseError>)
      requires currentPos <= |tokens|
      modifies this`currentPos
      ensures Observed(currentPos, thrown) == Factor(tokens, old(currentPos))
      decreases |tokens| - currentPos, 1
    {
      var ok := MatchToken(Identifier);
      if ok { return None; }
      ok := MatchToken(Number);
      if ok { return None; }
      ok := MatchToken(LParen);
      if ok {
        thrown := ParseExpression();
        if thrown.Some? { return; }
        ok := MatchToken(RParen);
        if !ok { return Some(ExpectedCloseParen); }
        return None;
      }
      return Some(InvalidFactor);
    }

    method ParseJump() returns (thrown: Option<ParseError>)
      requires currentPos <= |tokens|
      modifies this`currentPos
      ensures Observed(currentPos, thrown) == Jump(tokens, old(currentPos))
    {
      var ok := MatchToken(GoKw);
      if !ok { return Some(ExpectedGo); }
      ok := MatchToken(ToKw);
      if !ok { return Some(ExpectedTo); }
      ok := MatchToken(Identifier);
      if !ok { return Some(ExpectedJumpLabel); }
      return None;
    }

    method ParseRead() returns (thrown: Option<ParseError>)
      requires currentPos <= |tokens|
      modifies this`currentPos
      ensures Observed(currentPos, thrown) == Read(tokens, old(currentPos))
    {
      var ok := MatchToken(ReadKw);
      if !ok { return Some(ExpectedRead); }
      thrown := ParseIdentifierList();
    }

    method ParseIdentifierList() returns (thrown: Option<ParseError>)
      requires currentPos <= |tokens|
      modifies this`currentPos
      ensures Observed(currentPos, thrown) == IdentifierList(tokens, old(currentPos))
    {
      var token := CurrentToken();
      if token.Some? && token.value.kind == Identifier {
        var first := MatchToken(Identifier);
        while CurrentToken().Some? && CurrentToken().value.kind == Comma
          invariant old(currentPos) < currentPos <= |tokens|
          invariant IdentifierTail(tokens, currentPos) == IdentifierList(tokens, old(currentPos))
          decreases |tokens| - currentPos
        {
          var comma := MatchToken(Comma);
          var ok := MatchToken(Identifier);
          if !ok {
            return Some(ExpectedIdentifierAfterComma);
          }
        }
      }
      return None;
    }

    method ParsePrint() returns (thrown: Option<ParseError>)
      requires currentPos <= |tokens|
      modifies this`currentPos
      ensures Observed(currentPos, thrown) == Print(tokens, old(currentPos))
    {
      var ok := MatchToken(PrintKw);
      if !ok { return Some(ExpectedPrint); }
      thrown := ParseExpressionList();
    }

    method ParseExpressionList() returns (thrown: Option<ParseError>)
      requires currentPos <= |tokens|
      modifies this`currentPos
      ensures Observed(currentPos, thrown) == ExpressionList(tokens, old(currentPos))
    {
      var token := CurrentToken();
      if token.Some? && IsExprStartKind(token.value.kind) {
        thrown := ParseExpression();
        if thrown.Some? { return; }
        while CurrentToken().Some? && CurrentToken().value.kind == Comma
          invariant old(currentPos) < currentPos <= |tokens|
          invariant ExpressionListTail(tokens, currentPos) == ExpressionList(tokens, old(currentPos))
          decreases |tokens| - currentPos
        {
          var comma := MatchToken(Comma);
          var next := CurrentToken();
          if next.None? || !IsExprStartKind(next.value.kind) {
            return Some(ExpectedExpressionAfterComma);
          }
          thrown := ParseExpression();
          if thrown.Some? { return; }
        }
      }
      return None;
    }

    method ParseDecision() returns (thrown: Option<ParseError>)
      requires currentPos <= |tokens|
      modifies this`currentPos
      ensures Observed(currentPos, thrown) == Decision(tokens, old(currentPos))
      decreases |tokens| - currentPos, 8
    {
      ghost var p := currentPos;
      var ok := MatchToken(IfKw);
      if !ok { return Some(ExpectedIf); }
      thrown := ParseComparison();
      ghost var c := Comparison(tokens, p + 1);
      if thrown.Some? { return; }
      assert c == Ok(currentPos);
      ok := MatchToken(ThenKw);
      if !ok { return Some(ExpectedThen); }
      var token := CurrentToken();
      if token.Some? && token.value.kind == ElseKw {
        return Some(MissingThenCommand);
      }
      thrown := ParseBranches();
    }

    /** The rest of parseDecisao after THEN: command ELSE command. */
    method ParseBranches() returns (thrown: Option<ParseError>)
      requires currentPos <= |tokens|
      modifies this`currentPos
      ensures Observed(currentPos, thrown) == Branches(tokens, old(currentPos))
      decreases |tokens| - currentPos, 10
    {
      ghost var p := currentPos;
      thrown := ParseCommand();
      ghost var t := Command(tokens, p);
      if thrown.Some? { return; }
      assert t == Ok(currentPos);
      var ok := MatchToken(ElseKw);
      if !ok { return Some(ExpectedElse); }
      thrown := ParseCommand();
    }

    method ParseComparison() returns (thrown: Option<ParseError>)
      requires currentPos <= |tokens|
      modifies this`currentPos
      ensures Observed(currentPos, thrown) == Comparison(tokens, old(currentPos))
    {
      thrown := ParseExpression();
      if thrown.Some? { return; }
      var opToken := CurrentToken();
      if opToken.Some? && (opToken.value.kind == Eq || opToken.value.kind == Gt || opToken.value.kind == Lt) {
        var op := MatchToken(opToken.value.kind);
      } else {
        return Some(ExpectedComparison);
      }
      thrown := ParseExpression();
    }
  }
}
