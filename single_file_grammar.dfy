/**
 * The recursive-descent parser of SingleFileParser.java as functions of the
 * token list and the cursor `currentPos`. Every parse method either returns
 * normally or throws a ParseException with the cursor where it stopped; the
 * Outcome of each function is that pair.
 */
module SingleFileGrammar {
  import opened TableLexer

  /** One constructor per `error(...)` call of the parser. */
  datatype ParseError =
    | ExpectedEnd
    | ExtraTokensAfterEnd
    | ExpectedLet
    | ExpectedIdentifierAfterLet
    | ExpectedAssign
    | ExpectedCloseParen
    | InvalidFactor
    | ExpectedGo
    | ExpectedTo
    | ExpectedJumpLabel
    | ExpectedRead
    | ExpectedIdentifierAfterComma
    | ExpectedPrint
    | ExpectedExpressionAfterComma
    | ExpectedIf
    | ExpectedThen
    | MissingThenCommand
    | ExpectedElse
    | ExpectedComparison

  type Result = Outcome<ParseError>

  /** The cursor only moves forward and stays within the tokens. */
  predicate Within(toks: seq<Token>, p: nat, r: Result) {
    p <= r.pos <= |toks|
  }

  const LetKw := Keyword("LET")
  const GoKw := Keyword("GO")
  const ToKw := Keyword("TO")
  const ReadKw := Keyword("READ")
  const PrintKw := Keyword("PRINT")
  const IfKw := Keyword("IF")
  const ThenKw := Keyword("THEN")
  const ElseKw := Keyword("ELSE")
  const EndKw := Keyword("END")

  /** The token types that can start an expression (exprStartTokens). */
  predicate ExprStart(toks: seq<Token>, p: nat) {
    At(toks, p, Identifier) || At(toks, p, Number) || At(toks, p, LParen)
  }

  // parseFator: IDENTIFIER, NUMBER or `(` expression `)`.
  function Factor(toks: seq<Token>, p: nat): (r: Result)
    requires p <= |toks|
    ensures Within(toks, p, r) && (r.Ok? ==> r.pos > p)
    decreases |toks| - p, 1
  {
    if At(toks, p, Identifier) || At(toks, p, Number) then Ok(p + 1)
    else if At(toks, p, LParen) then
      var a := Expression(toks, p + 1);
      if a.Thrown? then a
      else if At(toks, a.pos, RParen) then Ok(a.pos + 1)
      else Thrown(ExpectedCloseParen, a.pos)
    else Thrown(InvalidFactor, p)
  }

  // parseTermo: a factor and its `*` / `/` tail.
  function Term(toks: seq<Token>, p: nat): (r: Result)
    requires p <= |toks|
    ensures Within(toks, p, r) && (r.Ok? ==> r.pos > p)
    decreases |toks| - p, 3
  {
    var a := Factor(toks, p);
    if a.Thrown? then a else TermTail(toks, a.pos)
  }

  // parseTermoLinha.
  function TermTail(toks: seq<Token>, p: nat): (r: Result)
    requires p <= |toks|
    ensures Within(toks, p, r)
    decreases |toks| - p, 2
  {
    if At(toks, p, Star) || At(toks, p, Slash) then
      var a := Factor(toks, p + 1);
      if a.Thrown? then a else TermTail(toks, a.pos)
    else Ok(p)
  }

  // parseExpressao: a term and its `+` / `-` tail.
  function Expression(toks: seq<Token>, p: nat): (r: Result)
    requires p <= |toks|
    ensures Within(toks, p, r) && (r.Ok? ==> r.pos > p)
    decreases |toks| - p, 5
  {
    var a := Term(toks, p);
    if a.Thrown? then a else ExpressionTail(toks, a.pos)
  }

  // parseExpressaoLinha.
  function ExpressionTail(toks: seq<Token>, p: nat): (r: Result)
    requires p <= |toks|
    ensures Within(toks, p, r)
    decreases |toks| - p, 4
  {
    if At(toks, p, Plus) || At(toks, p, Minus) then
      var a := Term(toks, p + 1);
      if a.Thrown? then a else ExpressionTail(toks, a.pos)
    else Ok(p)
  }

  // parseAtribuicao: LET IDENTIFIER := expression.
  function Assignment(toks: seq<Token>, p: nat): (r: Result)
    requires p <= |toks|
    ensures Within(toks, p, r) && (r.Ok? ==> r.pos > p)
  {
    if !At(toks, p, LetKw) then Thrown(ExpectedLet, p)
    else if !At(toks, p + 1, Identifier) then Thrown(ExpectedIdentifierAfterLet, p + 1)
    else if !At(toks, p + 2, Assign) then Thrown(ExpectedAssign, p + 2)
    else Expression(toks, p + 3)
  }

  // parseDesvio: GO TO IDENTIFIER (the computed form is not parsed here).
  function Jump(toks: seq<Token>, p: nat): (r: Result)
    requires p <= |toks|
    ensures Within(toks, p, r) && (r.Ok? ==> r.pos > p)
  {
    if !At(toks, p, GoKw) then Thrown(ExpectedGo, p)
    else if !At(toks, p + 1, ToKw) then Thrown(ExpectedTo, p + 1)
    else if !At(toks, p + 2, Identifier) then Thrown(ExpectedJumpLabel, p + 2)
    else Ok(p + 3)
  }

  // The while loop of parseListaDeIdentificadores, after the first identifier.
  function IdentifierTail(toks: seq<Token>, p: nat): (r: Result)
    requires p <= |toks|
    ensures Within(toks, p, r)
    decreases |toks| - p
  {
    if At(toks, p, Comma) then
      if At(toks, p + 1, Identifier) then IdentifierTail(toks, p + 2)
      else Thrown(ExpectedIdentifierAfterComma, p + 1)
    else Ok(p)
  }

  // parseListaDeIdentificadores: possibly empty.
  function IdentifierList(toks: seq<Token>, p: nat): (r: Result)
    requires p <= |toks|
    ensures Within(toks, p, r)
  {
    if At(toks, p, Identifier) then IdentifierTail(toks, p + 1) else Ok(p)
  }

  // parseLeitura: READ and an identifier list.
  function Read(toks: seq<Token>, p: nat): (r: Result)
    requires p <= |toks|
    ensures Within(toks, p, r) && (r.Ok? ==> r.pos > p)
  {
    if !At(toks, p, ReadKw) then Thrown(ExpectedRead, p) else IdentifierList(toks, p + 1)
  }

  // The while loop of parseListaDeExpressoes, after the first expression.
  function ExpressionListTail(toks: seq<Token>, p: nat): (r: Result)
    requires p <= |toks|
    ensures Within(toks, p, r)
    decreases |toks| - p, 6
  {
    if At(toks, p, Comma) then
      if !ExprStart(toks, p + 1) then Thrown(ExpectedExpressionAfterComma, p + 1)
      else
        var a := Expression(toks, p + 1);
        if a.Thrown? then a else ExpressionListTail(toks, a.pos)
    else Ok(p)
  }

  // parseListaDeExpressoes: possibly empty.
  function ExpressionList(toks: seq<Token>, p: nat): (r: Result)
    requires p <= |toks|
    ensures Within(toks, p, r)
    decreases |toks| - p, 7
  {
    if ExprStart(toks, p) then
      var a := Expression(toks, p);
      if a.Thrown? then a else ExpressionListTail(toks, a.pos)
    else Ok(p)
  }

  // parseImpressao: PRINT and an expression list.
  function Print(toks: seq<Token>, p: nat): (r: Result)
    requires p <= |toks|
    ensures Within(toks, p, r) && (r.Ok? ==> r.pos > p)
  {
    if !At(toks, p, PrintKw) then Thrown(ExpectedPrint, p) else ExpressionList(toks, p + 1)
  }

  // parseComparacao: expression, one of `=` `>` `<`, expression.
  function Comparison(toks: seq<Token>, p: nat): (r: Result)
    requires p <= |toks|
    ensures Within(toks, p, r) && (r.Ok? ==> r.pos > p)
    decreases |toks| - p, 6
  {
    var a := Expression(toks, p);
    if a.Thrown? then a
    else if At(toks, a.pos, Eq) || At(toks, a.pos, Gt) || At(toks, a.pos, Lt) then Expression(toks, a.pos + 1)
    else Thrown(ExpectedComparison, a.pos)
  }

  // parseDecisao: IF comparison THEN command ELSE command, where the THEN
  // branch may not be empty in front of ELSE.
  function Decision(toks: seq<Token>, p: nat): (r: Result)
    requires p <= |toks|
    ensures Within(toks, p, r) && (r.Ok? ==> r.pos > p)
    decreases |toks| - p, 8
  {
    if !At(toks, p, IfKw) then Thrown(ExpectedIf, p)
    else
      var c := Comparison(toks, p + 1);
      if c.Thrown? then c
      else if !At(toks, c.pos, ThenKw) then Thrown(ExpectedThen, c.pos)
      else if At(toks, c.pos + 1, ElseKw) then Thrown(MissingThenCommand, c.pos + 1)
      else Branches(toks, c.pos + 1)
  }

  // The rest of parseDecisao after THEN: command ELSE command.
  function Branches(toks: seq<Token>, p: nat): (r: Result)
    requires p <= |toks|
    ensures Within(toks, p, r) && (r.Ok? ==> r.pos > p)
    decreases |toks| - p, 10
  {
    var t := Command(toks, p);
    if t.Thrown? then t
    else if !At(toks, t.pos, ElseKw) then Thrown(ExpectedElse, t.pos)
    else Command(toks, t.pos + 1)
  }

  /** The tokens that start a command: a command keyword, or a label `IDENTIFIER :`. */
  predicate StartsCommand(toks: seq<Token>, p: nat) {
    At(toks, p, LetKw) || At(toks, p, GoKw) || At(toks, p, ReadKw) || At(toks, p, PrintKw) || At(toks, p, IfKw)
    || (At(toks, p, Identifier) && At(toks, p + 1, Colon))
  }

  // parseComando: dispatch on the current token; a label is consumed and the
  // command after it parsed. At the end of the tokens, and on any other token
  // (END, ELSE, THEN and `;` as well as the rest), nothing is consumed.
  function Command(toks: seq<Token>, p: nat): (r: Result)
    requires p <= |toks|
    ensures Within(toks, p, r)
    decreases |toks| - p, 9
  {
    if p >= |toks| then Ok(p)
    else
      var k := toks[p].kind;
      if k == LetKw then Assignment(toks, p)
      else if k == GoKw then Jump(toks, p)
      else if k == ReadKw then Read(toks, p)
      else if k == PrintKw then Print(toks, p)
      else if k == IfKw then Decision(toks, p)
      else if k == Identifier && At(toks, p + 1, Colon) then Command(toks, p + 2)
      else Ok(p)
  }

  // parseSequenciaDeComandosLinha: `;` command, repeated.
  function SequenceTail(toks: seq<Token>, p: nat): (r: Result)
    requires p <= |toks|
    ensures Within(toks, p, r)
    decreases |toks| - p, 10
  {
    if At(toks, p, Semi) then
      var a := Command(toks, p + 1);
      if a.Thrown? then a else SequenceTail(toks, a.pos)
    else Ok(p)
  }

  // parseSequenciaDeComandos.
  function CommandSequence(toks: seq<Token>, p: nat): (r: Result)
    requires p <= |toks|
    ensures Within(toks, p, r)
    decreases |toks| - p, 11
  {
    var a := Command(toks, p);
    if a.Thrown? then a else SequenceTail(toks, a.pos)
  }

  // parsePrograma: the command sequence, END, and nothing after it.
  function Program(toks: seq<Token>): (r: Result)
    ensures Within(toks, 0, r)
  {
    var a := CommandSequence(toks, 0);
    if a.Thrown? then a
    else if !At(toks, a.pos, EndKw) then Thrown(ExpectedEnd, a.pos)
    else if a.pos + 1 < |toks| then Thrown(ExtraTokensAfterEnd, a.pos + 1)
    else Ok(a.pos + 1)
  }

  /** What parse(inputCode) ends with: a LexerException, a ParseException, or normally. */
  datatype Verdict = LexFailed(at: nat, ch: char) | Rejected(error: ParseError, pos: nat) | Accepted

  /** parse(inputCode): tokenize, then parsePrograma. A lexical error names a
      character of the input; an accepted token list ends with END. */
  function Parse(input: string): (r: Verdict)
    ensures r.LexFailed? ==> r.at < |input| && input[r.at] == r.ch
    ensures r.Rejected? ==> Tokenize(JavaRegex, input).Tokens? && r.pos <= |Tokenize(JavaRegex, input).tokens|
    ensures r.Accepted? ==> Tokenize(JavaRegex, input).Tokens?
    ensures r.Accepted? ==> var toks := Tokenize(JavaRegex, input).tokens; |toks| >= 1 && toks[|toks| - 1].kind == EndKw
  {
    match Tokenize(JavaRegex, input)
    case LexerError(at, ch) => LexFailed(at, ch)
    case Tokens(toks) =>
      var r := Program(toks);
      if r.Thrown? then Rejected(r.error, r.pos) else Accepted
  }
}
