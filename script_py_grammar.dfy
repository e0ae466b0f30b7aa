/**
 * The parser of script.py as functions on its module globals. `position`,
 * `labels_defined` and `error_found` are the fields of PState, and `out` is
 * what the current parse call has printed so far, starting with the echo of
 * its input. Unlike Main.java, script.py
 * prints every error it meets (print is not guarded by error_found), and the
 * expression loop does not stop after an error.
 */
module ScriptPyGrammar {
  import opened Chars
  import opened Wrappers
  import opened HandLexer
  import opened TokenStream

  /** One constructor per line script.py prints while parsing. */
  datatype Message =
    | Analyzing(input: string)
    | InvalidCharacter(ch: char)
    | LexicalAnalysisAborted
    | ExpectedCloseParen
    | ExpectedFactor
    | ExpectedAssign
    | ExpectedIdentifier
    | ExpectedLabelAfterComma
    | JumpIndexOutOfRange(n: nat, size: nat)
    | InvalidNumericValue(numeral: string)
    | ExpectedLabelList
    | ExpectedOf
    | ExpectedJumpTarget
    | ExpectedTo
    | ExpectedReadIdentAfterComma
    | ExpectedReadIdent
    | ExpectedExpressionAfterComma
    | ExpectedExpressionAfterPrint
    | ExpectedElse
    | ExpectedThen
    | ExpectedRelOp
    | DuplicateLabel(name: string)
    | InvalidCommand(value: string)
    | EmptyInput
    | Success
    | ExtraTokensAfterEnd(next: string)
    | ExpectedEndAtEof
    | ExpectedEndOrInvalidCommand(near: string)
    | FailedAfterEarlierErrors

  /** The parser globals and the lines printed by the current call. */
  datatype PState = PState(pos: nat, labels: set<string>, errorFound: bool, out: seq<Message>)

  /** print(...) followed by `error_found = True`. */
  function Fail(st: PState, m: Message): (r: PState)
    ensures r.errorFound && r.out == st.out + [m]
    ensures r.pos == st.pos && r.labels == st.labels
  {
    st.(errorFound := true, out := st.out + [m])
  }

  /** A print that leaves error_found alone. */
  function Say(st: PState, m: Message): (r: PState)
    ensures r.out == st.out + [m]
    ensures r.pos == st.pos && r.labels == st.labels && r.errorFound == st.errorFound
  {
    st.(out := st.out + [m])
  }

  /** What every parsing function guarantees: the cursor moves forward and
      stays within the tokens, labels are only added, an error stays found,
      output is only appended, nothing is printed unless an error is found,
      and finding the first error prints at least one line. */
  predicate Advances(toks: seq<Token>, st: PState, r: PState) {
    && st.pos <= r.pos <= |toks|
    && st.labels <= r.labels
    && (st.errorFound ==> r.errorFound)
    && st.out <= r.out
    && (!r.errorFound ==> r.out == st.out)
    && (!st.errorFound && r.errorFound ==> |r.out| > |st.out|)
  }

  // factor(): an identifier, a number or a parenthesised expression. The
  // check for ')' runs even when the inner expression failed.
  function Factor(toks: seq<Token>, st: PState): (r: PState)
    requires st.pos <= |toks|
    ensures Advances(toks, st, r) && r.labels == st.labels
    ensures st.errorFound ==> r == st
    decreases |toks| - st.pos, 0
  {
    if st.errorFound || st.pos >= |toks| then st
    else
      var t := toks[st.pos];
      if t.category == Ide || t.category == Num then st.(pos := st.pos + 1)
      else if t == Token(Punctuation, "(") then
        var s := Expression(toks, st.(pos := st.pos + 1));
        if Is(toks, s.pos, Punctuation, ")") then s.(pos := s.pos + 1)
        else Fail(s, ExpectedCloseParen)
      else Fail(st, ExpectedFactor)
  }

  // expression(): a factor, then the operator loop.
  function Expression(toks: seq<Token>, st: PState): (r: PState)
    requires st.pos <= |toks|
    ensures Advances(toks, st, r) && r.labels == st.labels
    ensures st.errorFound ==> r == st
    decreases |toks| - st.pos, 2
  {
    if st.errorFound || st.pos >= |toks| then st
    else ExprLoop(toks, Factor(toks, st))
  }

  // The while loop of expression(): it tests only for an operator, not for
  // error_found, so after an error it still passes the operators it meets.
  function ExprLoop(toks: seq<Token>, st: PState): (r: PState)
    requires st.pos <= |toks|
    ensures Advances(toks, st, r) && r.labels == st.labels
    ensures st.errorFound ==> r.out == st.out
    decreases |toks| - st.pos, 1
  {
    if IsArith(toks, st.pos) then ExprLoop(toks, Factor(toks, st.(pos := st.pos + 1)))
    else st
  }

  // `LET` already passed.
  function LetRule(toks: seq<Token>, s: PState): (r: PState)
    requires s.pos <= |toks| && !s.errorFound
    ensures Advances(toks, s, r) && r.labels == s.labels
  {
    if !IsCat(toks, s.pos, Ide) then Fail(s, ExpectedIdentifier)
    else if !Is(toks, s.pos + 1, Operator, ":=") then Fail(s.(pos := s.pos + 1), ExpectedAssign)
    else Expression(toks, s.(pos := s.pos + 2))
  }

  /** int(num_value_str) on a numeral: its value for a non-empty digit string.
      Python's int is unbounded; the limit on the number of digits that
      CPython 3.11 and later put on int() of a string is not modelled. */
  function PyInt(numeral: string): (r: Option<nat>)
    ensures r.Some? <==> |numeral| > 0 && AllDigits(numeral)
  {
    if |numeral| > 0 && AllDigits(numeral) then Some(NumeralValue(numeral)) else None
  }

  /** The range check after the label list of a computed jump. */
  function RangeCheck(st: PState, numeral: string, k: nat): (r: PState)
    ensures r.pos == st.pos && r.labels == st.labels && st.out <= r.out
    ensures !r.errorFound <==> !st.errorFound && PyInt(numeral).Some? && 1 <= PyInt(numeral).value <= k
    ensures !r.errorFound ==> r == st
  {
    match PyInt(numeral)
    case None => Fail(st, InvalidNumericValue(numeral))
    case Some(n) => if n < 1 || n > k then Fail(st, JumpIndexOutOfRange(n, k)) else st
  }

  // The label-list loop of a computed jump, entered on an identifier; k
  // labels are already in label_list. Returns the state and the list length.
  function LabelLoop(toks: seq<Token>, st: PState, k: nat): (r: (PState, nat))
    requires IsCat(toks, st.pos, Ide) && !st.errorFound
    ensures Advances(toks, st, r.0) && r.0.labels == st.labels && r.1 > k
    decreases |toks| - st.pos
  {
    var p := st.pos + 1;
    if !Is(toks, p, Punctuation, ",") then (st.(pos := p), k + 1)
    else if !IsCat(toks, p + 1, Ide) then (Fail(st.(pos := p + 1), ExpectedLabelAfterComma), k + 1)
    else LabelLoop(toks, st.(pos := p + 1), k + 1)
  }

  // `GO TO n` already passed: OF, the labels, the range check.
  function ComputedGoRule(toks: seq<Token>, s: PState, numeral: string): (r: PState)
    requires s.pos <= |toks| && !s.errorFound
    ensures Advances(toks, s, r) && r.labels == s.labels
  {
    if !Is(toks, s.pos, Keyword, "OF") then Fail(s, ExpectedOf)
    else if !IsCat(toks, s.pos + 1, Ide) then Fail(s.(pos := s.pos + 1), ExpectedLabelList)
    else
      var (s2, k) := LabelLoop(toks, s.(pos := s.pos + 1), 0);
      if s2.errorFound then s2 else RangeCheck(s2, numeral, k)
  }

  // `GO` already passed.
  function GoRule(toks: seq<Token>, s: PState): (r: PState)
    requires s.pos <= |toks| && !s.errorFound
    ensures Advances(toks, s, r) && r.labels == s.labels
  {
    if !Is(toks, s.pos, Keyword, "TO") then Fail(s, ExpectedTo)
    else
      var p := s.pos + 1;
      if p >= |toks| then Fail(s.(pos := p), ExpectedJumpTarget)
      else if toks[p].category == Ide then s.(pos := p + 1)
      else if toks[p].category == Num then ComputedGoRule(toks, s.(pos := p + 1), toks[p].value)
      else Fail(s.(pos := p), ExpectedJumpTarget)
  }

  // The loop of READ, entered on an identifier.
  function ReadLoop(toks: seq<Token>, st: PState): (r: PState)
    requires IsCat(toks, st.pos, Ide) && !st.errorFound
    ensures Advances(toks, st, r) && r.labels == st.labels
    decreases |toks| - st.pos
  {
    var p := st.pos + 1;
    if !Is(toks, p, Punctuation, ",") then st.(pos := p)
    else if !IsCat(toks, p + 1, Ide) then Fail(st.(pos := p + 1), ExpectedReadIdentAfterComma)
    else ReadLoop(toks, st.(pos := p + 1))
  }

  // `READ` already passed.
  function ReadRule(toks: seq<Token>, s: PState): (r: PState)
    requires s.pos <= |toks| && !s.errorFound
    ensures Advances(toks, s, r) && r.labels == s.labels
  {
    if IsCat(toks, s.pos, Ide) then ReadLoop(toks, s) else Fail(s, ExpectedReadIdent)
  }

  // The loop of PRINT after the first expression: (',' expression)*.
  function PrintLoop(toks: seq<Token>, st: PState): (r: PState)
    requires st.pos <= |toks| && !st.errorFound
    ensures Advances(toks, st, r) && r.labels == st.labels
    decreases |toks| - st.pos
  {
    if !Is(toks, st.pos, Punctuation, ",") then st
    else
      var p := st.pos + 1;
      if p >= |toks| then Fail(st.(pos := p), ExpectedExpressionAfterComma)
      else
        var s2 := Expression(toks, st.(pos := p));
        if s2.errorFound then s2 else PrintLoop(toks, s2)
  }

  // `PRINT` already passed.
  function PrintRule(toks: seq<Token>, s: PState): (r: PState)
    requires s.pos <= |toks| && !s.errorFound
    ensures Advances(toks, s, r) && r.labels == s.labels
  {
    if s.pos >= |toks| then Fail(s, ExpectedExpressionAfterPrint)
    else
      var s1 := Expression(toks, s);
      if s1.errorFound then s1 else PrintLoop(toks, s1)
  }

  // `IF` already passed: expression, comparison, expression, THEN, the rest.
  function IfRule(toks: seq<Token>, s: PState): (r: PState)
    requires s.pos <= |toks| && !s.errorFound
    ensures Advances(toks, s, r)
    decreases |toks| - s.pos, 2
  {
    var s1 := Expression(toks, s);
    if s1.errorFound then s1
    else if !IsRelOp(toks, s1.pos) then Fail(s1, ExpectedRelOp)
    else
      var s2 := Expression(toks, s1.(pos := s1.pos + 1));
      if s2.errorFound then s2
      else if !Is(toks, s2.pos, Keyword, "THEN") then Fail(s2, ExpectedThen)
      else ThenElse(toks, s2.(pos := s2.pos + 1))
  }

  // After THEN: a command, ELSE, a command.
  function ThenElse(toks: seq<Token>, s: PState): (r: PState)
    requires s.pos <= |toks| && !s.errorFound
    ensures Advances(toks, s, r)
    decreases |toks| - s.pos, 1
  {
    var s3 := Command(toks, s);
    if s3.errorFound then s3
    else if Is(toks, s3.pos, Keyword, "ELSE") then Command(toks, s3.(pos := s3.pos + 1))
    else Fail(s3, ExpectedElse)
  }

  // command(): a keyword command, or a label prefix and a command. END and the
  // keywords that start no command (TO, OF, THEN, ELSE) are left in place
  // without an error.
  function Command(toks: seq<Token>, st: PState): (r: PState)
    requires st.pos <= |toks|
    ensures Advances(toks, st, r)
    ensures st.errorFound ==> r == st
    decreases |toks| - st.pos, 0
  {
    if st.errorFound || st.pos >= |toks| then st
    else
      var t := toks[st.pos];
      var s := st.(pos := st.pos + 1);
      if t.category == Keyword then
        if t.value == "LET" then LetRule(toks, s)
        else if t.value == "GO" then GoRule(toks, s)
        else if t.value == "READ" then ReadRule(toks, s)
        else if t.value == "PRINT" then PrintRule(toks, s)
        else if t.value == "IF" then IfRule(toks, s)
        else st
      else if t.category == Ide && Is(toks, st.pos + 1, Punctuation, ":") then
        if t.value in st.labels then Fail(st, DuplicateLabel(t.value))
        else Command(toks, st.(labels := st.labels + {t.value}, pos := st.pos + 2))
      else Fail(st, InvalidCommand(t.value))
  }

  // command_sequence(): commands separated by `;`, up to END, the end of the
  // tokens, an error, or a command not followed by `;`.
  function CommandSeq(toks: seq<Token>, st: PState): (r: PState)
    requires st.pos <= |toks|
    ensures Advances(toks, st, r)
    decreases |toks| - st.pos
  {
    if st.pos >= |toks| || st.errorFound || IsEnd(toks, st.pos) then st
    else
      var s1 := Command(toks, st);
      if s1.errorFound then s1
      else if Is(toks, s1.pos, Punctuation, ";") then CommandSeq(toks, s1.(pos := s1.pos + 1))
      else s1
  }

  /** The globals as parse resets them after a successful tokenize. */
  const Fresh: PState := PState(0, {}, false, [])

  /** parse after tokenize returned a token list; `before` holds the lines the
      call has printed already. */
  function ParseTokens(toks: seq<Token>, before: seq<Message>): (r: PState)
    ensures before < r.out
  {
    var start := Fresh.(out := before);
    if toks == [] then Say(start, EmptyInput)
    else if toks == [EndToken] then Say(start, Success)
    else Conclude(toks, CommandSeq(toks, start))
  }

  /** The verdict line parse prints once command_sequence has returned in
      the state `s`. */
  function Conclude(toks: seq<Token>, s: PState): PState
    requires s.pos <= |toks|
  {
    if s.errorFound then Say(s, FailedAfterEarlierErrors)
    else if IsEnd(toks, s.pos) then
      var e := s.(pos := s.pos + 1);
      if e.pos == |toks| then Say(e, Success) else Say(e, ExtraTokensAfterEnd(toks[e.pos].value))
    else if s.pos >= |toks| then Say(s, ExpectedEndAtEof)
    else Say(s, ExpectedEndOrInvalidCommand(toks[s.pos].value))
  }

  /** tokenize(input_string): the token list, or None after an invalid character. */
  function Tokenized(input: string): Option<seq<Token>> {
    match Lex(input)
    case Lexed(toks) => Some(toks)
    case LexFailed(_, _) => None
  }

  /** parse(input_string) from the globals `prior`: the input is echoed
      first; after a lexical error the globals keep their old values and only
      the two error messages follow the echo. */
  function ParseInput(input: string, prior: PState): (r: PState)
    ensures |r.out| >= 2 && r.out[0] == Analyzing(input)
    ensures Lex(input).LexFailed? ==> r.pos == prior.pos && r.labels == prior.labels && r.errorFound == prior.errorFound
  {
    match Lex(input)
    case LexFailed(c, _) => prior.(out := [Analyzing(input), InvalidCharacter(c), LexicalAnalysisAborted])
    case Lexed(toks) => ParseTokens(toks, [Analyzing(input)])
  }

  /** Whether parse(input_string) ends by announcing success. */
  predicate Accepts(input: string) {
    var out := ParseInput(input, Fresh).out;
    |out| > 0 && out[|out| - 1] == Success
  }
}
