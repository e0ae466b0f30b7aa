/**
 * The recursive-descent parser of tempCodeRunnerFile.py as functions of the
 * token list and the cursor `posicao_atual`. Each `_analisar_*` method either
 * returns or raises ErroSintatico with the cursor where it stopped; the
 * Outcome of each function is that pair. The `while` loops of the source are
 * the `...Loop` functions here, each a function of the cursor at the loop head.
 */
module TempRunnerGrammar {
  import opened TableLexer

  /** One constructor per distinct `_erro(...)` raised by the parser. */
  datatype SyntaxError =
    | ExpectedToken(expected: Kind)     // _esperar_token
    | SemicolonBeforeEnd
    | UnexpectedEndOfProgram
    | InvalidCommand(value: string)
    | InvalidFactor
    | ExpectedExpressionAfterComma
    | ExpectedComparison
    | ExtraTokens

  type Result = Outcome<SyntaxError>

  predicate Within(toks: seq<Token>, p: nat, r: Result) {
    p <= r.pos <= |toks|
  }

  const LetKw := Keyword("LET")
  const GoKw := Keyword("GO")
  const ToKw := Keyword("TO")
  const OfKw := Keyword("OF")
  const ReadKw := Keyword("READ")
  const PrintKw := Keyword("PRINT")
  const IfKw := Keyword("IF")
  const ThenKw := Keyword("THEN")
  const ElseKw := Keyword("ELSE")
  const EndKw := Keyword("END")

  /** _esperar_token: consume a token of the expected type or raise. */
  function Expect(toks: seq<Token>, p: nat, k: Kind): (r: Result)
    requires p <= |toks|
    ensures Within(toks, p, r)
    ensures r.Ok? <==> At(toks, p, k)
    ensures r.Ok? ==> r.pos == p + 1
    ensures r.Thrown? ==> r == Thrown(ExpectedToken(k), p)
  {
    if At(toks, p, k) then Ok(p + 1) else Thrown(ExpectedToken(k), p)
  }

  /** tokens_inicio_expr */
  predicate ExprStart(toks: seq<Token>, p: nat) {
    At(toks, p, Identifier) || At(toks, p, Number) || At(toks, p, LParen)
  }

  // _analisar_fator
  function Factor(toks: seq<Token>, p: nat): (r: Result)
    requires p <= |toks|
    ensures Within(toks, p, r) && (r.Ok? ==> r.pos > p)
    decreases |toks| - p, 1
  {
    if At(toks, p, Identifier) || At(toks, p, Number) then Ok(p + 1)
    else if At(toks, p, LParen) then
      var a := Expression(toks, p + 1);
      if a.Thrown? then a else Expect(toks, a.pos, RParen)
    else Thrown(InvalidFactor, p)
  }

  // _analisar_termo: a factor, then the loop over `*` and `/`.
  function Term(toks: seq<Token>, p: nat): (r: Result)
    requires p <= |toks|
    ensures Within(toks, p, r) && (r.Ok? ==> r.pos > p)
    decreases |toks| - p, 3
  {
    var a := Factor(toks, p);
    if a.Thrown? then a else TermLoop(toks, a.pos)
  }

  function TermLoop(toks: seq<Token>, p: nat): (r: Result)
    requires p <= |toks|
    ensures Within(toks, p, r)
    decreases |toks| - p, 2
  {
    if At(toks, p, Star) || At(toks, p, Slash) then
      var a := Factor(toks, p + 1);
      if a.Thrown? then a else TermLoop(toks, a.pos)
    else Ok(p)
  }

  // _analisar_expressao: a term, then the loop over `+` and `-`.
  function Expression(toks: seq<Token>, p: nat): (r: Result)
    requires p <= |toks|
    ensures Within(toks, p, r) && (r.Ok? ==> r.pos > p)
    decreases |toks| - p, 5
  {
    var a := Term(toks, p);
    if a.Thrown? then a else ExpressionLoop(toks, a.pos)
  }

  function ExpressionLoop(toks: seq<Token>, p: nat): (r: Result)
    requires p <= |toks|
    ensures Within(toks, p, r)
    decreases |toks| - p, 4
  {
    if At(toks, p, Plus) || At(toks, p, Minus) then
      var a := Term(toks, p + 1);
      if a.Thrown? then a else ExpressionLoop(toks, a.pos)
    else Ok(p)
  }

  // _analisar_atribuicao
  function Assignment(toks: seq<Token>, p: nat): (r: Result)
    requires p <= |toks|
    ensures Within(toks, p, r) && (r.Ok? ==> r.pos > p)
  {
    if !At(toks, p, LetKw) then Thrown(ExpectedToken(LetKw), p)
    else if !At(toks, p + 1, Identifier) then Thrown(ExpectedToken(Identifier), p + 1)
    else if !At(toks, p + 2, Assign) then Thrown(ExpectedToken(Assign), p + 2)
    else Expression(toks, p + 3)
  }

  // The loop of _analisar_lista_de_rotulos, after its first label.
  function LabelLoop(toks: seq<Token>, p: nat): (r: Result)
    requires p <= |toks|
    ensures Within(toks, p, r)
    decreases |toks| - p
  {
    if At(toks, p, Comma) then
      if At(toks, p + 1, Identifier) then LabelLoop(toks, p + 2)
      else Thrown(ExpectedToken(Identifier), p + 1)
    else Ok(p)
  }

  // _analisar_lista_de_rotulos: one label or more, comma separated.
  function LabelList(toks: seq<Token>, p: nat): (r: Result)
    requires p <= |toks|
    ensures Within(toks, p, r) && (r.Ok? ==> r.pos > p)
  {
    if At(toks, p, Identifier) then LabelLoop(toks, p + 1)
    else Thrown(ExpectedToken(Identifier), p)
  }

  // _analisar_desvio: GO TO IDENTIFICADOR, optionally OF and a label list.
  function Jump(toks: seq<Token>, p: nat): (r: Result)
    requires p <= |toks|
    ensures Within(toks, p, r) && (r.Ok? ==> r.pos > p)
  {
    if !At(toks, p, GoKw) then Thrown(ExpectedToken(GoKw), p)
    else if !At(toks, p + 1, ToKw) then Thrown(ExpectedToken(ToKw), p + 1)
    else if !At(toks, p + 2, Identifier) then Thrown(ExpectedToken(Identifier), p + 2)
    else if At(toks, p + 3, OfKw) then LabelList(toks, p + 4)
    else Ok(p + 3)
  }

  // The loop of _analisar_lista_de_identificadores, after its first identifier.
  function IdentifierLoop(toks: seq<Token>, p: nat): (r: Result)
    requires p <= |toks|
    ensures Within(toks, p, r)
    decreases |toks| - p
  {
    if At(toks, p, Comma) then
      if At(toks, p + 1, Identifier) then IdentifierLoop(toks, p + 2)
      else Thrown(ExpectedToken(Identifier), p + 1)
    else Ok(p)
  }

  // _analisar_lista_de_identificadores: possibly empty.
  function IdentifierList(toks: seq<Token>, p: nat): (r: Result)
    requires p <= |toks|
    ensures Within(toks, p, r)
  {
    if At(toks, p, Identifier) then IdentifierLoop(toks, p + 1) else Ok(p)
  }

  // _analisar_leitura
  function Read(toks: seq<Token>, p: nat): (r: Result)
    requires p <= |toks|
    ensures Within(toks, p, r) && (r.Ok? ==> r.pos > p)
  {
    if !At(toks, p, ReadKw) then Thrown(ExpectedToken(ReadKw), p) else IdentifierList(toks, p + 1)
  }

  // The loop of _analisar_lista_de_expressoes, after its first expression.
  function ExpressionListLoop(toks: seq<Token>, p: nat): (r: Result)
    requires p <= |toks|
    ensures Within(toks, p, r)
    decreases |toks| - p
  {
    if At(toks, p, Comma) then
      if !ExprStart(toks, p + 1) then Thrown(ExpectedExpressionAfterComma, p + 1)
      else
        var a := Expression(toks, p + 1);
        if a.Thrown? then a else ExpressionListLoop(toks, a.pos)
    else Ok(p)
  }

  // _analisar_lista_de_expressoes: possibly empty.
  function ExpressionList(toks: seq<Token>, p: nat): (r: Result)
    requires p <= |toks|
    ensures Within(toks, p, r)
  {
    if ExprStart(toks, p) then
      var a := Expression(toks, p);
      if a.Thrown? then a else ExpressionListLoop(toks, a.pos)
    else Ok(p)
  }

  // _analisar_impressao
  function Print(toks: seq<Token>, p: nat): (r: Result)
    requires p <= |toks|
    ensures Within(toks, p, r) && (r.Ok? ==> r.pos > p)
  {
    if !At(toks, p, PrintKw) then Thrown(ExpectedToken(PrintKw), p) else ExpressionList(toks, p + 1)
  }

  // _analisar_comparacao with _analisar_operador_de_comparacao.
  function Comparison(toks: seq<Token>, p: nat): (r: Result)
    requires p <= |toks|
    ensures Within(toks, p, r) && (r.Ok? ==> r.pos > p)
  {
    var a := Expression(toks, p);
    if a.Thrown? then a
    else if At(toks, a.pos, Eq) || At(toks, a.pos, Gt) || At(toks, a.pos, Lt) then Expression(toks, a.pos + 1)
    else Thrown(ExpectedComparison, a.pos)
  }

  // _analisar_decisao: both branches go through the label wrapper.
  function Decision(toks: seq<Token>, p: nat): (r: Result)
    requires p <= |toks|
    ensures Within(toks, p, r) && (r.Ok? ==> r.pos > p)
    decreases |toks| - p, 8
  {
    if !At(toks, p, IfKw) then Thrown(ExpectedToken(IfKw), p)
    else
      var c := Comparison(toks, p + 1);
      if c.Thrown? then c
      else if !At(toks, c.pos, ThenKw) then Thrown(ExpectedToken(ThenKw), c.pos)
      else Branches(toks, c.pos + 1)
  }

  // The rest of _analisar_decisao after THEN: command ELSE command.
  function Branches(toks: seq<Token>, p: nat): (r: Result)
    requires p <= |toks|
    ensures Within(toks, p, r) && (r.Ok? ==> r.pos > p)
    decreases |toks| - p, 11
  {
    var t := Wrapped(toks, p);
    if t.Thrown? then t
    else if !At(toks, t.pos, ElseKw) then Thrown(ExpectedToken(ElseKw), t.pos)
    else Wrapped(toks, t.pos + 1)
  }

  /** A label in front of a command: IDENTIFICADOR followed by `:`. */
  predicate LabelAt(toks: seq<Token>, p: nat) {
    At(toks, p, Identifier) && At(toks, p + 1, Colon)
  }

  // _analisar_invólucro_comando: at most one label, then the command.
  function Wrapped(toks: seq<Token>, p: nat): (r: Result)
    requires p <= |toks|
    ensures Within(toks, p, r)
    decreases |toks| - p, 10
  {
    if LabelAt(toks, p) then Command(toks, p + 2) else Command(toks, p)
  }

  // _analisar_comando: the end of the tokens is an error; END, ELSE and `;`
  // are the empty command; any other token that starts no command is an error.
  function Command(toks: seq<Token>, p: nat): (r: Result)
    requires p <= |toks|
    ensures Within(toks, p, r)
    decreases |toks| - p, 9
  {
    if p >= |toks| then Thrown(UnexpectedEndOfProgram, p)
    else
      var k := toks[p].kind;
      if k == LetKw then Assignment(toks, p)
      else if k == GoKw then Jump(toks, p)
      else if k == ReadKw then Read(toks, p)
      else if k == PrintKw then Print(toks, p)
      else if k == IfKw then Decision(toks, p)
      else if k == EndKw || k == ElseKw || k == Semi then Ok(p)
      else Thrown(InvalidCommand(toks[p].text), p)
  }

  // The loop of _analisar_sequencia_de_comandos: `;` and a command, where
  // `;` directly in front of END is an error.
  function SequenceLoop(toks: seq<Token>, p: nat): (r: Result)
    requires p <= |toks|
    ensures Within(toks, p, r)
    decreases |toks| - p
  {
    if At(toks, p, Semi) then
      if At(toks, p + 1, EndKw) then Thrown(SemicolonBeforeEnd, p + 1)
      else
        var a := Wrapped(toks, p + 1);
        if a.Thrown? then a else SequenceLoop(toks, a.pos)
    else Ok(p)
  }

  // _analisar_sequencia_de_comandos
  function CommandSequence(toks: seq<Token>, p: nat): (r: Result)
    requires p <= |toks|
    ensures Within(toks, p, r)
  {
    var a := Wrapped(toks, p);
    if a.Thrown? then a else SequenceLoop(toks, a.pos)
  }

  // _analisar_programa
  function Program(toks: seq<Token>): (r: Result)
    ensures Within(toks, 0, r)
  {
    var a := CommandSequence(toks, 0);
    if a.Thrown? then a else Expect(toks, a.pos, EndKw)
  }

  // analisar, after tokenizing: the program and then no token left.
  function Analyze(toks: seq<Token>): (r: Result)
    ensures Within(toks, 0, r)
    ensures r.Ok? ==> r.pos == |toks| >= 1 && toks[|toks| - 1].kind == EndKw
  {
    var a := Program(toks);
    if a.Thrown? then a
    else if a.pos < |toks| then Thrown(ExtraTokens, a.pos)
    else a
  }

  /** What analisar(codigo_entrada) ends with: ErroLexico, ErroSintatico or normally. */
  datatype Verdict = LexFailed(at: nat, ch: char) | Rejected(error: SyntaxError, pos: nat) | Accepted

  /** analisar(codigo_entrada): tokenize, then the program and the check for
      extra tokens. A lexical error names a character of the input; an accepted
      token list ends with END. */
  function Parse(input: string): (r: Verdict)
    ensures r.LexFailed? ==> r.at < |input| && input[r.at] == r.ch
    ensures r.Rejected? ==> Tokenize(PythonRegex, input).Tokens? && r.pos <= |Tokenize(PythonRegex, input).tokens|
    ensures r.Accepted? ==> Tokenize(PythonRegex, input).Tokens?
    ensures r.Accepted? ==> var toks := Tokenize(PythonRegex, input).tokens; |toks| >= 1 && toks[|toks| - 1].kind == EndKw
  {
    match Tokenize(PythonRegex, input)
    case LexerError(at, ch) => LexFailed(at, ch)
    case Tokens(toks) =>
      var r := Analyze(toks);
      if r.Thrown? then Rejected(r.error, r.pos) else Accepted
  }
}
