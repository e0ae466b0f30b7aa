/**
 * The grammar rules of LexerParser (Main.java) as functions on the parser
 * state. Each function is what the corresponding Java method does to the
 * fields parserPosition, labelsDefined, errorFound and to the stream of
 * error messages; the class in module MainJava is proved to do exactly this.
 */
module MainGrammar {
  import opened Chars
  import opened Wrappers
  import opened HandLexer
  import opened TokenStream

  /** One kind per distinct error message of Main.java. */
  datatype ErrorKind =
    | LexicalError(ch: char)
    | MissingCloseParen
    | ExpectedFactor
    | ExpectedSemicolonOrEnd
    | DuplicateLabel(name: string)
    | ExpectedCommandKeyword
    | ExpectedIdentAfterLet
    | ExpectedAssign
    | ExpectedTo
    | ExpectedJumpTarget
    | ExpectedOf
    | ExpectedLabelList
    | ExpectedLabelAfterComma
    | JumpIndexOutOfRange(n: nat, size: nat)
    | InvalidNumberFormat(numeral: string)
    | ExpectedReadIdent
    | ExpectedReadIdentAfterComma
    | ExpectedRelOp
    | ExpectedThen
    | ExpectedElse
    | UnexpectedEnd
    | UnrecognizedKeyword(word: string)
    | NoTokensForNonBlankInput
    | EmptyProgram
    | ExtraTokensAfterEnd
    | ExpectedEndAtEof
    | ExpectedEndOrInvalidCommand

  /** A printed error: its kind and the token index (character index for a
      lexical error) the message refers to. */
  datatype Diag = Diag(kind: ErrorKind, at: nat)

  /** The parser fields of LexerParser and the error messages printed so far. */
  datatype State = State(pos: nat, labels: set<string>, errorFound: bool, log: seq<Diag>)

  /** reportError: the message is printed only when no error was found before,
      and the flag is set in any case. */
  function Report(st: State, kind: ErrorKind): (r: State)
    ensures r.errorFound && r.pos == st.pos && r.labels == st.labels
    ensures st.errorFound ==> r.log == st.log
    ensures !st.errorFound ==> r.log == st.log + [Diag(kind, st.pos)]
  {
    st.(errorFound := true, log := if st.errorFound then st.log else st.log + [Diag(kind, st.pos)])
  }

  /** What every grammar rule guarantees: the cursor moves forward and stays
      within the tokens, labels are only added, a rule entered after an error
      changes nothing, and a rule that finds the first error prints exactly
      one message while one that finds none prints nothing. */
  predicate Follows(toks: seq<Token>, st: State, r: State) {
    && st.pos <= r.pos <= |toks|
    && st.labels <= r.labels
    && (st.errorFound ==> r == st)
    && (!r.errorFound ==> r.log == st.log)
    && (!st.errorFound && r.errorFound ==> |r.log| == |st.log| + 1 && r.log[..|st.log|] == st.log)
  }

  // factor: an identifier, a number, or a parenthesised expression.
  function Factor(toks: seq<Token>, st: State): (r: State)
    requires st.pos <= |toks|
    ensures Follows(toks, st, r) && r.labels == st.labels
    decreases |toks| - st.pos, 0
  {
    if st.errorFound || st.pos >= |toks| then st
    else if toks[st.pos].category == Ide || toks[st.pos].category == Num then st.(pos := st.pos + 1)
    else if Is(toks, st.pos, Punctuation, "(") then
      var s1 := Expression(toks, st.(pos := st.pos + 1));
      if Is(toks, s1.pos, Punctuation, ")") then s1.(pos := s1.pos + 1)
      else Report(s1, MissingCloseParen)
    else Report(st, ExpectedFactor)
  }

  // expression: factor, then (operator factor) while the next token is + - * /.
  function Expression(toks: seq<Token>, st: State): (r: State)
    requires st.pos <= |toks|
    ensures Follows(toks, st, r) && r.labels == st.labels
    decreases |toks| - st.pos, 2
  {
    if st.errorFound || st.pos >= |toks| then st
    else ExprTail(toks, Factor(toks, st))
  }

  function ExprTail(toks: seq<Token>, st: State): (r: State)
    requires st.pos <= |toks|
    ensures Follows(toks, st, r) && r.labels == st.labels
    decreases |toks| - st.pos, 1
  {
    if !st.errorFound && IsArith(toks, st.pos) then ExprTail(toks, Factor(toks, st.(pos := st.pos + 1)))
    else st
  }

  // The loop of `GO TO n OF ...` after the first label: (',' identifier)*,
  // counting the labels.
  function LabelTail(toks: seq<Token>, st: State, k: nat): (r: (State, nat))
    requires st.pos <= |toks| && !st.errorFound
    ensures Follows(toks, st, r.0) && r.1 >= k && r.0.labels == st.labels
    decreases |toks| - st.pos
  {
    if !Is(toks, st.pos, Punctuation, ",") then (st, k)
    else if !IsCat(toks, st.pos + 1, Ide) then (Report(st.(pos := st.pos + 1), ExpectedLabelAfterComma), k)
    else LabelTail(toks, st.(pos := st.pos + 2), k + 1)
  }

  /** Integer.parseInt on a numeral: its value when it fits in an int. */
  function ParseInt(numeral: string): (r: Option<nat>)
    ensures r.Some? ==> r.value <= MaxJavaInt
    ensures |numeral| > 0 && AllDigits(numeral) && NumeralValue(numeral) <= MaxJavaInt ==> r == Some(NumeralValue(numeral))
    ensures !AllDigits(numeral) ==> r.None?
  {
    if |numeral| > 0 && AllDigits(numeral) && NumeralValue(numeral) <= MaxJavaInt
    then Some(NumeralValue(numeral)) else None
  }


  /** The check after a complete label list: 1 <= n <= k. */
  function JumpCheck(st: State, numeral: string, k: nat): (r: State)
    ensures r.pos == st.pos && r.labels == st.labels
    ensures !r.errorFound <==> !st.errorFound && ParseInt(numeral).Some? && 1 <= ParseInt(numeral).value <= k
  {
    match ParseInt(numeral)
    case None => Report(st, InvalidNumberFormat(numeral))
    case Some(n) => if n < 1 || n > k then Report(st, JumpIndexOutOfRange(n, k)) else st
  }

  // `GO` already consumed.
  function GoRule(toks: seq<Token>, s: State): (r: State)
    requires s.pos <= |toks| && !s.errorFound
    ensures Follows(toks, s, r) && r.labels == s.labels
  {
    if !Is(toks, s.pos, Keyword, "TO") then Report(s, ExpectedTo)
    else
      var p := s.pos + 1;
      if p >= |toks| then Report(s.(pos := p), ExpectedJumpTarget)
      else if toks[p].category == Ide then s.(pos := p + 1)
      else if toks[p].category == Num then ComputedGoRule(toks, s.(pos := p + 1), toks[p].value)
      else Report(s.(pos := p), ExpectedJumpTarget)
  }

  // `GO TO n` already consumed: `OF` and the label list, then the range check.
  function ComputedGoRule(toks: seq<Token>, s: State, numeral: string): (r: State)
    requires s.pos <= |toks| && !s.errorFound
    ensures Follows(toks, s, r) && r.labels == s.labels
  {
    if !Is(toks, s.pos, Keyword, "OF") then Report(s, ExpectedOf)
    else if !IsCat(toks, s.pos + 1, Ide) then Report(s.(pos := s.pos + 1), ExpectedLabelList)
    else
      var (s2, k) := LabelTail(toks, s.(pos := s.pos + 2), 1);
      if s2.errorFound then s2 else JumpCheck(s2, numeral, k)
  }

  // `LET` already consumed.
  function LetRule(toks: seq<Token>, s: State): (r: State)
    requires s.pos <= |toks| && !s.errorFound
    ensures Follows(toks, s, r) && r.labels == s.labels
  {
    if !IsCat(toks, s.pos, Ide) then Report(s, ExpectedIdentAfterLet)
    else if !Is(toks, s.pos + 1, Operator, ":=") then Report(s.(pos := s.pos + 1), ExpectedAssign)
    else Expression(toks, s.(pos := s.pos + 2))
  }

  // The loop of READ after the first identifier: (',' identifier)*.
  function ReadTail(toks: seq<Token>, st: State): (r: State)
    requires st.pos <= |toks| && !st.errorFound
    ensures Follows(toks, st, r) && r.labels == st.labels
    decreases |toks| - st.pos
  {
    if !Is(toks, st.pos, Punctuation, ",") then st
    else if !IsCat(toks, st.pos + 1, Ide) then Report(st.(pos := st.pos + 1), ExpectedReadIdentAfterComma)
    else ReadTail(toks, st.(pos := st.pos + 2))
  }

  // `READ` already consumed.
  function ReadRule(toks: seq<Token>, s: State): (r: State)
    requires s.pos <= |toks| && !s.errorFound
    ensures Follows(toks, s, r) && r.labels == s.labels
  {
    if !IsCat(toks, s.pos, Ide) then Report(s, ExpectedReadIdent)
    else ReadTail(toks, s.(pos := s.pos + 1))
  }

  // The loop of PRINT after the first expression: (',' expression)*.
  function PrintTail(toks: seq<Token>, st: State): (r: State)
    requires st.pos <= |toks|
    ensures Follows(toks, st, r)
    decreases |toks| - st.pos
  {
    if st.errorFound || !Is(toks, st.pos, Punctuation, ",") then st
    else PrintTail(toks, Expression(toks, st.(pos := st.pos + 1)))
  }

  // `PRINT` already consumed.
  function PrintRule(toks: seq<Token>, s: State): (r: State)
    requires s.pos <= |toks|
    ensures Follows(toks, s, r)
  {
    PrintTail(toks, Expression(toks, s))
  }

  // `IF` already consumed.
  function IfRule(toks: seq<Token>, s: State): (r: State)
    requires s.pos <= |toks|
    ensures Follows(toks, s, r)
    decreases |toks| - s.pos, 4
  {
    var s1 := Expression(toks, s);
    if s1.errorFound then s1
    else if !IsRelOp(toks, s1.pos) then Report(s1, ExpectedRelOp)
    else
      var s2 := Expression(toks, s1.(pos := s1.pos + 1));
      if s2.errorFound then s2
      else if !Is(toks, s2.pos, Keyword, "THEN") then Report(s2, ExpectedThen)
      else ThenElse(toks, s2.(pos := s2.pos + 1))
  }

  // `IF condition THEN` already consumed: a command, `ELSE`, a command.
  function ThenElse(toks: seq<Token>, s: State): (r: State)
    requires s.pos <= |toks|
    ensures Follows(toks, s, r)
    decreases |toks| - s.pos, 4
  {
    var s3 := Command(toks, s);
    if s3.errorFound then s3
    else if Is(toks, s3.pos, Keyword, "ELSE") then Command(toks, s3.(pos := s3.pos + 1))
    else Report(s3, ExpectedElse)
  }

  // command: an optional `label :` prefix, then one keyword-led command.
  function Command(toks: seq<Token>, st: State): (r: State)
    requires st.pos <= |toks|
    ensures Follows(toks, st, r)
    decreases |toks| - st.pos, 3
  {
    if st.errorFound || st.pos >= |toks| then st
    else
      var t := toks[st.pos];
      if t.category == Ide && Is(toks, st.pos + 1, Punctuation, ":") then
        if t.value in st.labels then Report(st, DuplicateLabel(t.value))
        else Command(toks, st.(labels := st.labels + {t.value}, pos := st.pos + 2))
      else if t.category != Keyword then Report(st, ExpectedCommandKeyword)
      else
        var s := st.(pos := st.pos + 1);
        if t.value == "LET" then LetRule(toks, s)
        else if t.value == "GO" then GoRule(toks, s)
        else if t.value == "READ" then ReadRule(toks, s)
        else if t.value == "PRINT" then PrintRule(toks, s)
        else if t.value == "IF" then IfRule(toks, s)
        else if t.value == "END" then
          // the consumed END is given back after the report
          var e := Report(s, UnexpectedEnd);
          e.(pos := e.pos - 1)
        else Report(s, UnrecognizedKeyword(t.value))
  }

  // commandSequence: commands separated by `;`, up to END or the end of input.
  function CommandSeq(toks: seq<Token>, st: State): (r: State)
    requires st.pos <= |toks|
    ensures Follows(toks, st, r)
    decreases |toks| - st.pos
  {
    if st.errorFound || st.pos >= |toks| || IsEnd(toks, st.pos) then st
    else
      var s1 := Command(toks, st);
      if s1.errorFound then s1
      else if Is(toks, s1.pos, Punctuation, ";") then CommandSeq(toks, s1.(pos := s1.pos + 1))
      else if s1.pos < |toks| && !IsEnd(toks, s1.pos) then Report(s1, ExpectedSemicolonOrEnd)
      else s1
  }

  /** The outcome of one parse call: whether success was announced, and the
      parser fields and error messages it leaves behind. */
  datatype Verdict = Verdict(accepted: bool, final: State) {
    function Log(): seq<Diag> { final.log }
  }

  /** The fields as parse clears them before lexing. */
  const Fresh: State := State(0, {}, false, [])

  /** parse after a successful tokenize, from the cleared state: the tokens
      are accepted exactly when no error is found, and then they end with END
      and nothing has been printed. */
  function ParseTokens(toks: seq<Token>): (r: Verdict)
    ensures r.accepted <==> !r.final.errorFound
    ensures r.accepted ==> r.Log() == [] && |toks| > 0 && toks[|toks| - 1] == EndToken
  {
    if toks == [] then Verdict(false, Report(Fresh, EmptyProgram))
    else if toks == [EndToken] then Verdict(true, Fresh)
    else
      var s := CommandSeq(toks, Fresh);
      if s.errorFound then Verdict(false, s)
      else if IsEnd(toks, s.pos) then
        if s.pos + 1 == |toks| then Verdict(true, s.(pos := s.pos + 1))
        else Verdict(false, Report(s.(pos := s.pos + 1), ExtraTokensAfterEnd))
      else if s.pos >= |toks| then Verdict(false, Report(s, ExpectedEndAtEof))
      else Verdict(false, Report(s, ExpectedEndOrInvalidCommand))
  }

  /** Java's String.trim().isEmpty(): every character is at most SPACE. */
  predicate TrimsToEmpty(s: string) {
    forall k :: 0 <= k < |s| ==> s[k] <= ' '
  }

  /** parse(inputString): lexing, then the grammar from the cleared state. An
      accepted input lexes and prints nothing; a lexical error prints one
      message, about a character of the input. */
  function ParseInput(input: string): (r: Verdict)
    ensures r.accepted ==> Lex(input).Lexed? && r.Log() == []
    ensures Lex(input).LexFailed? ==> !r.accepted && |r.Log()| == 1 && r.Log()[0].at < |input|
  {
    match Lex(input)
    case LexFailed(c, i) => Verdict(false, Fresh.(errorFound := true, log := [Diag(LexicalError(c), i)]))
    case Lexed(toks) =>
      if toks == [] && !TrimsToEmpty(input) then Verdict(false, Fresh.(log := [Diag(NoTokensForNonBlankInput, 0)]))
      else ParseTokens(toks)
  }
}
