/**
 * The class AnalisadorSintaticoArquivoUnico of tempCodeRunnerFile.py:
 * `tokens` and `posicao_atual` are its state, _tokenizar is the nested loop
 * over the input and the rule table, and every `while` of the parser is a
 * loop here. A raised ErroSintatico is the returned error, with the cursor
 * left where it was raised. Every method is proved to end as the matching
 * function of TempRunnerGrammar says.
 */
module TempRunnerPy {
  import opened Wrappers
  import opened TableLexer
  import opened TempRunnerGrammar

  /** A method's normal return or raise, as an Outcome. */
  function Observed(pos: nat, raised: Option<SyntaxError>): Result {
    if raised.None? then Ok(pos) else Thrown(raised.value, pos)
  }

  predicate IsExprStartKind(k: Kind) {
    k == Identifier || k == Number || k == LParen
  }

  /** AnalisadorSintaticoArquivoUnico */
  class SingleFileAnalyzer {
    var tokens: seq<Token>
    var currentPos: nat

    constructor()
      ensures tokens == [] && currentPos == 0
    {
      tokens := [];
      currentPos := 0;
    }

    /** _tokenizar: for each input position, the first rule of the table that
        matches there; a position no rule matches raises ErroLexico. */
    method Tokenize(input: string) returns (result: Lexed)
      ensures result == TableLexer.Tokenize(PythonRegex, input)
    {
      var generatedTokens: seq<Token> := [];
      var inputPos := 0;
      while inputPos < |input|
        invariant inputPos <= |input|
        invariant TableLexer.Tokenize(PythonRegex, input) == Prepend(generatedTokens, TokenizeFrom(PythonRegex, input, inputPos))
        decreases |input| - inputPos
      {
        TokenizeStep(PythonRegex, input, inputPos, generatedTokens);
        ghost var start, before := inputPos, generatedTokens;
        var matched := false;
        var k := 0;
        while k < |Specs|
          invariant k <= |Specs|
          invariant FirstMatch(PythonRegex, input, start, 0) == FirstMatch(PythonRegex, input, start, k)
          invariant inputPos == start && generatedTokens == before && !matched
          decreases |Specs| - k
        {
          var spec := Specs[k];
          var m := MatchEnd(PythonRegex, spec.pattern, input, inputPos);
          if m.MatchTo? {
            assert FirstMatch(PythonRegex, input, start, 0) == Hit(spec.kind, m.end);
            var text := input[inputPos..m.end];
            if spec.kind == Identifier {
              if text in Keywords(PythonRegex) {
                generatedTokens := generatedTokens + [Token(Keyword(text), text)];
              } else {
                generatedTokens := generatedTokens + [Token(Identifier, text)];
              }
            } else if spec.kind != Whitespace {
              generatedTokens := generatedTokens + [Token(spec.kind, text)];
            }
            assert generatedTokens == before + Emitted(PythonRegex, spec.kind, text);
            inputPos := m.end;
            matched := true;
            break;
          }
          k := k + 1;
        }
        if !matched {
          return LexerError(inputPos, input[inputPos]);
        }
      }
      assert generatedTokens + [] == generatedTokens;
      return Tokens(generatedTokens);
    }

    /** _token_atual */
    function CurrentToken(): (t: Option<Token>)
      reads this
      ensures t.Some? <==> currentPos < |tokens|
      ensures t.Some? ==> t.value == tokens[currentPos]
    {
      if currentPos < |tokens| then Some(tokens[currentPos]) else None
    }

    /** _espiar_token: the token `offset` places after the cursor, if any. */
    function Peek(offset: nat): (t: Option<Token>)
      reads this
      ensures t.Some? <==> currentPos + offset < |tokens|
      ensures t.Some? ==> t.value == tokens[currentPos + offset]
    {
      if currentPos + offset < |tokens| then Some(tokens[currentPos + offset]) else None
    }

    /** _combinar_token: consume and return the current token when it has the expected type. */
    method Match(expectedType: Kind) returns (token: Option<Token>)
      modifies this`currentPos
      ensures token.Some? <==> At(tokens, old(currentPos), expectedType)
      ensures token.Some? ==> token.value == tokens[old(currentPos)]
      ensures currentPos == if token.Some? then old(currentPos) + 1 else old(currentPos)
    {
      token := CurrentToken();
      if token.Some? && token.value.kind == expectedType {
        currentPos := currentPos + 1;
      } else {
        token := None;
      }
    }

    /** _esperar_token */
    method Expect(expectedType: Kind) returns (raised: Option<SyntaxError>)
      requires currentPos <= |tokens|
      modifies this`currentPos
      ensures Observed(currentPos, raised) == TempRunnerGrammar.Expect(tokens, old(currentPos), expectedType)
    {
      var token := Match(expectedType);
      if token.None? {
        return Some(ExpectedToken(expectedType));
      }
      return None;
    }

    /** analisar */
    method Analyze(input: string) returns (verdict: Verdict)
      modifies this
      ensures verdict == Parse(input)
      ensures verdict.LexFailed? ==> tokens == old(tokens) && currentPos == old(currentPos)
      ensures !verdict.LexFailed? ==> TableLexer.Tokenize(PythonRegex, input) == Tokens(tokens)
      ensures verdict.Rejected? ==> currentPos == verdict.pos
      ensures verdict.Accepted? ==> currentPos == |tokens|
    {
      var lexed := Tokenize(input);
      if lexed.LexerError? {
        return LexFailed(lexed.at, lexed.ch);
      }
      tokens := lexed.tokens;
      currentPos := 0;
      var raised := ParseProgram();
      if raised.Some? {
        return Rejected(raised.value, currentPos);
      }
      if CurrentToken().Some? {
        return Rejected(ExtraTokens, currentPos);
      }
      return Accepted;
    }

    /** _analisar_programa */
    method ParseProgram() returns (raised: Option<SyntaxError>)
      requires currentPos == 0
      modifies this`currentPos
      ensures Observed(currentPos, raised) == Program(tokens)
    {
      raised := ParseCommandSequence();
      if raised.Some? { return; }
      raised := Expect(EndKw);
    }

    /** _analisar_sequencia_de_comandos */
    method ParseCommandSequence() returns (raised: Option<SyntaxError>)
      requires currentPos <= |tokens|
      modifies this`currentPos
      ensures Observed(currentPos, raised) == CommandSequence(tokens, old(currentPos))
    {
      raised := ParseWrapped();
      if raised.Some? { return; }
      while CurrentToken().Some? && CurrentToken().value.kind == Semi
        invariant currentPos <= |tokens| && raised.None?
        invariant SequenceLoop(tokens, currentPos) == CommandSequence(tokens, old(currentPos))
        decreases |tokens| - currentPos
      {
        var semi := Match(Semi);
        if CurrentToken().Some? && CurrentToken().value.kind == EndKw {
          return Some(SemicolonBeforeEnd);
        }
        raised := ParseWrapped();
        if raised.Some? { return; }
      }
    }

    /** _analisar_invólucro_comando */
    method ParseWrapped() returns (raised: Option<SyntaxError>)
      requires currentPos <= |tokens|
      modifies this`currentPos
      ensures Observed(currentPos, raised) == Wrapped(tokens, old(currentPos))
      decreases |tokens| - currentPos, 10
    {
      ghost var p := currentPos;
      var token := CurrentToken();
      var nextToken := Peek(1);
      if token.Some? && token.value.kind == Identifier && nextToken.Some? && nextToken.value.kind == Colon {
        assert LabelAt(tokens, p);
        raised := ParseLabel();
        if raised.Some? { return; }
        assert currentPos == p + 1;
        raised := Expect(Colon);
        if raised.Some? { return; }
        assert currentPos == p + 2;
        raised := ParseCommand();
        assert Wrapped(tokens, p) == Command(tokens, p + 2);
      } else {
        assert !LabelAt(tokens, p);
        raised := ParseCommand();
      }
    }

    /** _analisar_comando */
    method ParseCommand() returns (raised: Option<SyntaxError>)
      requires currentPos <= |tokens|
      modifies this`currentPos
      ensures Observed(currentPos, raised) == Command(tokens, old(currentPos))
      decreases |tokens| - currentPos, 9
    {
      var token := CurrentToken();
      if token.None? {
        return Some(UnexpectedEndOfProgram);
      }
      var kind := token.value.kind;
      if kind == LetKw {
        raised := ParseAssignment();
      } else if kind == GoKw {
        raised := ParseJump();
      } else if kind == ReadKw {
        raised := ParseRead();
      } else if kind == PrintKw {
        raised := ParsePrint();
      } else if kind == IfKw {
        raised := ParseDecision();
      } else if kind == EndKw || kind == ElseKw || kind == Semi {
        raised := None;
      } else {
        raised := Some(InvalidCommand(token.value.text));
      }
    }

    /** _analisar_atribuicao */
    method ParseAssignment() returns (raised: Option<SyntaxError>)
      requires currentPos <= |tokens|
      modifies this`currentPos
      ensures Observed(currentPos, raised) == Assignment(tokens, old(currentPos))
    {
      raised := Expect(LetKw);
      if raised.Some? { return; }
      raised := Expect(Identifier);
      if raised.Some? { return; }
      raised := Expect(Assign);
      if raised.Some? { return; }
      raised := ParseExpression();
    }

    /** _analisar_expressao */
    method ParseExpression() returns (raised: Option<SyntaxError>)
      requires currentPos <= |tokens|
      modifies this`currentPos
      ensures Observed(currentPos, raised) == Expression(tokens, old(currentPos))
      decreases |tokens| - currentPos, 5
    {
      raised := ParseTerm();
      if raised.Some? { return; }
      while CurrentToken().Some? && (CurrentToken().value.kind == Plus || CurrentToken().value.kind == Minus)
        invariant old(currentPos) < currentPos <= |tokens| && raised.None?
        invariant ExpressionLoop(tokens, currentPos) == Expression(tokens, old(currentPos))
        decreases |tokens| - currentPos
      {
        var op := Match(CurrentToken().value.kind);
        raised := ParseTerm();
        if raised.Some? { return; }
      }
    }

    /** _analisar_termo */
    method ParseTerm() returns (raised: Option<SyntaxError>)
      requires currentPos <= |tokens|
      modifies this`currentPos
      ensures Observed(currentPos, raised) == Term(tokens, old(currentPos))
      decreases |tokens| - currentPos, 3
    {
      raised := ParseFactor();
      if raised.Some? { return; }
      while CurrentToken().Some? && (CurrentToken().value.kind == Star || CurrentToken().value.kind == Slash)
        invariant old(currentPos) < currentPos <= |tokens| && raised.None?
        invariant TermLoop(tokens, currentPos) == Term(tokens, old(currentPos))
        decreases |tokens| - currentPos
      {
        var op := Match(CurrentToken().value.kind);
        raised := ParseFactor();
        if raised.Some? { return; }
      }
    }

    /** _analisar_fator */
    method ParseFactor() returns (raised: Option<SyntaxError>)
      requires currentPos <= |tokens|
      modifies this`currentPos
      ensures Observed(currentPos, raised) == Factor(tokens, old(currentPos))
      decreases |tokens| - currentPos, 1
    {
      var token := Match(Identifier);
      if token.Some? { return None; }
      token := Match(Number);
      if token.Some? { return None; }
      token := Match(LParen);
      if token.Some? {
        raised := ParseExpression();
        if raised.Some? { return; }
        raised := Expect(RParen);
        return;
      }
      return Some(InvalidFactor);
    }

    /** _analisar_desvio */
    method ParseJump() returns (raised: Option<SyntaxError>)
      requires currentPos <= |tokens|
      modifies this`currentPos
      ensures Observed(currentPos, raised) == Jump(tokens, old(currentPos))
    {
      raised := Expect(GoKw);
      if raised.Some? { return; }
      raised := Expect(ToKw);
      if raised.Some? { return; }
      raised := Expect(Identifier);
      if raised.Some? { return; }
      var of := Match(OfKw);
      if of.Some? {
        raised := ParseLabelList();
      }
    }

    /** _analisar_lista_de_rotulos */
    method ParseLabelList() returns (raised: Option<SyntaxError>)
      requires currentPos <= |tokens|
      modifies this`currentPos
      ensures Observed(currentPos, raised) == LabelList(tokens, old(currentPos))
    {
      raised := ParseLabel();
      if raised.Some? { return; }
      var comma := Match(Comma);
      while comma.Some?
        invariant old(currentPos) < currentPos <= |tokens| && raised.None?
        invariant comma.Some? ==> At(tokens, currentPos - 1, Comma)
        invariant comma.None? ==> !At(tokens, currentPos, Comma)
        invariant LabelLoop(tokens, if comma.Some? then currentPos - 1 else currentPos) == LabelList(tokens, old(currentPos))
        decreases |tokens| - currentPos, comma.Some?
      {
        raised := ParseLabel();
        if raised.Some? { return; }
        comma := Match(Comma);
      }
    }

    /** _analisar_rotulo */
    method ParseLabel() returns (raised: Option<SyntaxError>)
      requires currentPos <= |tokens|
      modifies this`currentPos
      ensures Observed(currentPos, raised) == TempRunnerGrammar.Expect(tokens, old(currentPos), Identifier)
    {
      raised := Expect(Identifier);
    }

    /** _analisar_leitura */
    method ParseRead() returns (raised: Option<SyntaxError>)
      requires currentPos <= |tokens|
      modifies this`currentPos
      ensures Observed(currentPos, raised) == Read(tokens, old(currentPos))
    {
      raised := Expect(ReadKw);
      if raised.Some? { return; }
      raised := ParseIdentifierList();
    }

    /** _analisar_lista_de_identificadores */
    method ParseIdentifierList() returns (raised: Option<SyntaxError>)
      requires currentPos <= |tokens|
      modifies this`currentPos
      ensures Observed(currentPos, raised) == IdentifierList(tokens, old(currentPos))
    {
      var token := CurrentToken();
      if !(token.Some? && token.value.kind == Identifier) {
        return None;
      }
      raised := Expect(Identifier);
      if raised.Some? { return; }
      while CurrentToken().Some? && CurrentToken().value.kind == Comma
        invariant old(currentPos) < currentPos <= |tokens| && raised.None?
        invariant IdentifierLoop(tokens, currentPos) == IdentifierList(tokens, old(currentPos))
        decreases |tokens| - currentPos
      {
        var comma := Match(Comma);
        raised := Expect(Identifier);
        if raised.Some? { return; }
      }
    }

    /** _analisar_impressao */
    method ParsePrint() returns (raised: Option<SyntaxError>)
      requires currentPos <= |tokens|
      modifies this`currentPos
      ensures Observed(currentPos, raised) == Print(tokens, old(currentPos))
    {
      raised := Expect(PrintKw);
      if raised.Some? { return; }
      raised := ParseExpressionList();
    }

    /** _analisar_lista_de_expressoes */
    method ParseExpressionList() returns (raised: Option<SyntaxError>)
      requires currentPos <= |tokens|
      modifies this`currentPos
      ensures Observed(currentPos, raised) == ExpressionList(tokens, old(currentPos))
    {
      var token := CurrentToken();
      if !(token.Some? && IsExprStartKind(token.value.kind)) {
        return None;
      }
      raised := ParseExpression();
      if raised.Some? { return; }
      while CurrentToken().Some? && CurrentToken().value.kind == Comma
        invariant old(currentPos) < currentPos <= |tokens| && raised.None?
        invariant ExpressionListLoop(tokens, currentPos) == ExpressionList(tokens, old(currentPos))
        decreases |tokens| - currentPos
      {
        var comma := Match(Comma);
        var next := CurrentToken();
        if !(next.Some? && IsExprStartKind(next.value.kind)) {
          return Some(ExpectedExpressionAfterComma);
        }
        raised := ParseExpression();
        if raised.Some? { return; }
      }
    }

    /** _analisar_decisao */
    method ParseDecision() returns (raised: Option<SyntaxError>)
      requires currentPos <= |tokens|
      modifies this`currentPos
      ensures Observed(currentPos, raised) == Decision(tokens, old(currentPos))
      decreases |tokens| - currentPos, 8
    {
      ghost var p := currentPos;
      raised := Expect(IfKw);
      if raised.Some? { return; }
      raised := ParseComparison();
      ghost var c := Comparison(tokens, p + 1);
      if raised.Some? { return; }
      assert c == Ok(currentPos);
      raised := Expect(ThenKw);
      if raised.Some? { return; }
      raised := ParseBranches();
    }

    /** The rest of _analisar_decisao after THEN: command ELSE command. */
    method ParseBranches() returns (raised: Option<SyntaxError>)
      requires currentPos <= |tokens|
      modifies this`currentPos
      ensures Observed(currentPos, raised) == Branches(tokens, old(currentPos))
      decreases |tokens| - currentPos, 11
    {
      ghost var p := currentPos;
      raised := ParseWrapped();
      ghost var t := Wrapped(tokens, p);
      if raised.Some? { return; }
      assert t == Ok(currentPos);
      raised := Expect(ElseKw);
      if raised.Some? { return; }
      raised := ParseWrapped();
    }

    /** _analisar_comparacao */
    method ParseComparison() returns (raised: Option<SyntaxError>)
      requires currentPos <= |tokens|
      modifies this`currentPos
      ensures Observed(currentPos, raised) == Comparison(tokens, old(currentPos))
    {
      raised := ParseExpression();
      if raised.Some? { return; }
      raised := ParseComparisonOperator();
      if raised.Some? { return; }
      raised := ParseExpression();
    }

    /** _analisar_operador_de_comparacao */
    method ParseComparisonOperator() returns (raised: Option<SyntaxError>)
      requires currentPos <= |tokens|
      modifies this`currentPos
      ensures raised.None? <==> (At(tokens, old(currentPos), Eq) || At(tokens, old(currentPos), Gt) || At(tokens, old(currentPos), Lt))
      ensures raised.None? ==> currentPos == old(currentPos) + 1
      ensures raised.Some? ==> raised == Some(ExpectedComparison) && currentPos == old(currentPos)
    {
      var token := CurrentToken();
      if token.Some? && (token.value.kind == Eq || token.value.kind == Gt || token.value.kind == Lt) {
        var op := Match(token.value.kind);
        return None;
      }
      return Some(ExpectedComparison);
    }
  }
}
