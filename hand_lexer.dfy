/**
 * The hand-written lexer shared by Main.java (LexerParser.tokenize),
 * script.py (tokenize) and script.java (BasicParser.tokenize).
 *
 * The three functions are written differently but classify every ASCII
 * character the same way, so this module states their common behaviour once
 * as the function Lex; each source's loop is a method proved equal to it in
 * that source's module.
 */
module HandLexer {
  import opened Chars

  datatype Category = Keyword | Ide | Num | Operator | Punctuation

  datatype Token = Token(category: Category, value: string)

  /** The ten reserved words, matched case-insensitively through their upper-case spelling. */
  const Reserved: set<string> := {"END", "LET", "GO", "TO", "OF", "READ", "PRINT", "IF", "THEN", "ELSE"}

  const OperatorSpellings: set<string> := {":=", ">=", "<=", ">", "<", "=", "+", "-", "*", "/"}

  const PunctuationSpellings: set<string> := {":", ";", ",", "(", ")"}

  /** A character the lexers can place in a token or skip. */
  predicate Accepted(c: char) {
    IsWhitespace(c) || IsLetterOrDigit(c) || c == ':' || c == '<' || c == '>'
    || IsArithmeticOrEquals(c) || IsSeparator(c)
  }

  /** The characters that always form a one-character operator. */
  predicate IsArithmeticOrEquals(c: char) {
    c == '=' || c == '+' || c == '-' || c == '*' || c == '/'
  }

  /** The characters that always form a one-character punctuation token. */
  predicate IsSeparator(c: char) {
    c == ';' || c == ',' || c == '(' || c == ')'
  }

  /** End of the letter/digit run that starts at i. */
  function AlnumEnd(s: string, i: nat): (j: nat)
    requires i <= |s|
    ensures i <= j <= |s|
    ensures forall k :: i <= k < j ==> IsLetterOrDigit(s[k])
    ensures j == |s| || !IsLetterOrDigit(s[j])
    decreases |s| - i
  {
    if i < |s| && IsLetterOrDigit(s[i]) then AlnumEnd(s, i + 1) else i
  }

  /** End of the digit run that starts at i. */
  function DigitEnd(s: string, i: nat): (j: nat)
    requires i <= |s|
    ensures i <= j <= |s|
    ensures forall k :: i <= k < j ==> IsDigit(s[k])
    ensures j == |s| || !IsDigit(s[j])
    decreases |s| - i
  {
    if i < |s| && IsDigit(s[i]) then DigitEnd(s, i + 1) else i
  }

  /** The token for a letter-led run: the upper-cased keyword, or the run as written. */
  function Word(w: string): Token {
    if ToUpper(w) in Reserved then Token(Keyword, ToUpper(w)) else Token(Ide, w)
  }

  datatype Scanned = Skip | Emit(token: Token, next: nat) | Stuck

  /** One step of the lexer loop at index i. */
  function Scan(s: string, i: nat): (r: Scanned)
    requires i < |s|
    ensures r.Skip? <==> IsWhitespace(s[i])
    ensures r.Stuck? <==> !Accepted(s[i])
    ensures r.Emit? ==> i < r.next <= |s| && forall k :: i <= k < r.next ==> Accepted(s[k])
  {
    var c := s[i];
    if IsWhitespace(c) then Skip
    else if IsLetter(c) then
      var j := AlnumEnd(s, i);
      Emit(Word(s[i..j]), j)
    else if IsDigit(c) then
      var j := DigitEnd(s, i);
      Emit(Token(Num, s[i..j]), j)
    else if c == ':' then
      if i + 1 < |s| && s[i + 1] == '=' then Emit(Token(Operator, ":="), i + 2)
      else Emit(Token(Punctuation, ":"), i + 1)
    else if c == '>' then
      if i + 1 < |s| && s[i + 1] == '=' then Emit(Token(Operator, ">="), i + 2)
      else Emit(Token(Operator, ">"), i + 1)
    else if c == '<' then
      if i + 1 < |s| && s[i + 1] == '=' then Emit(Token(Operator, "<="), i + 2)
      else Emit(Token(Operator, "<"), i + 1)
    else if IsArithmeticOrEquals(c) then Emit(Token(Operator, [c]), i + 1)
    else if IsSeparator(c) then Emit(Token(Punctuation, [c]), i + 1)
    else Stuck
  }

  /** The lexer's answer: every token, or the first rejected character and its index. */
  datatype LexResult = Lexed(tokens: seq<Token>) | LexFailed(bad: char, at: nat)

  function Prepend(ts: seq<Token>, r: LexResult): LexResult {
    if r.Lexed? then Lexed(ts + r.tokens) else r
  }

  /** Lexing the input from index i on. */
  function LexFrom(s: string, i: nat): LexResult
    requires i <= |s|
    decreases |s| - i
  {
    if i == |s| then Lexed([])
    else match Scan(s, i)
      case Skip => LexFrom(s, i + 1)
      case Stuck => LexFailed(s[i], i)
      case Emit(t, j) => Prepend([t], LexFrom(s, j))
  }

  /** One step of the lexer loop, seen from the tokens already collected. */
  lemma LexStep(s: string, i: nat, ts: seq<Token>)
    requires i < |s|
    ensures Prepend(ts, LexFrom(s, i)) ==
      match Scan(s, i)
      case Skip => Prepend(ts, LexFrom(s, i + 1))
      case Stuck => LexFailed(s[i], i)
      case Emit(t, j) => Prepend(ts + [t], LexFrom(s, j))
  {
    match Scan(s, i)
    case Skip =>
    case Stuck =>
    case Emit(t, j) =>
      var rest := LexFrom(s, j);
      if rest.Lexed? {
        assert ts + ([t] + rest.tokens) == (ts + [t]) + rest.tokens;
      }
  }

  lemma EmitStep(s: string, i: nat, ts: seq<Token>, t: Token, j: nat)
    requires i < |s| && Scan(s, i) == Emit(t, j)
    ensures Prepend(ts, LexFrom(s, i)) == Prepend(ts + [t], LexFrom(s, j))
  {
    LexStep(s, i, ts);
  }

  // The steps of the lexer loop, one per branch, seen from the tokens already collected.

  lemma StepWord(s: string, i: nat, ts: seq<Token>)
    requires i < |s| && IsLetter(s[i])
    ensures Prepend(ts, LexFrom(s, i)) == Prepend(ts + [Word(s[i..AlnumEnd(s, i)])], LexFrom(s, AlnumEnd(s, i)))
  {
    ScanLetter(s, i);
    EmitStep(s, i, ts, Word(s[i..AlnumEnd(s, i)]), AlnumEnd(s, i));
  }

  lemma StepNumber(s: string, i: nat, ts: seq<Token>)
    requires i < |s| && IsDigit(s[i])
    ensures Prepend(ts, LexFrom(s, i)) == Prepend(ts + [Token(Num, s[i..DigitEnd(s, i)])], LexFrom(s, DigitEnd(s, i)))
  {
    ScanDigits(s, i);
    EmitStep(s, i, ts, Token(Num, s[i..DigitEnd(s, i)]), DigitEnd(s, i));
  }

  lemma StepTwoCharacters(s: string, i: nat, ts: seq<Token>)
    requires i + 1 < |s| && (s[i] == ':' || s[i] == '<' || s[i] == '>') && s[i + 1] == '='
    ensures Prepend(ts, LexFrom(s, i)) == Prepend(ts + [Token(Operator, [s[i], '='])], LexFrom(s, i + 2))
  {
    TwoCharacterOperatorsWin(s, i);
    EmitStep(s, i, ts, Token(Operator, [s[i], '=']), i + 2);
  }

  lemma StepShortComparison(s: string, i: nat, ts: seq<Token>)
    requires i < |s| && (s[i] == ':' || s[i] == '<' || s[i] == '>') && !(i + 1 < |s| && s[i + 1] == '=')
    ensures Prepend(ts, LexFrom(s, i)) ==
      Prepend(ts + [if s[i] == ':' then Token(Punctuation, ":") else Token(Operator, [s[i]])], LexFrom(s, i + 1))
  {
    TwoCharacterOperatorsWin(s, i);
    EmitStep(s, i, ts, if s[i] == ':' then Token(Punctuation, ":") else Token(Operator, [s[i]]), i + 1);
  }

  lemma StepOperator(s: string, i: nat, ts: seq<Token>)
    requires i < |s| && IsArithmeticOrEquals(s[i])
    ensures Prepend(ts, LexFrom(s, i)) == Prepend(ts + [Token(Operator, [s[i]])], LexFrom(s, i + 1))
  {
    ScanSingle(s, i);
    EmitStep(s, i, ts, Token(Operator, [s[i]]), i + 1);
  }

  lemma StepSeparator(s: string, i: nat, ts: seq<Token>)
    requires i < |s| && IsSeparator(s[i])
    ensures Prepend(ts, LexFrom(s, i)) == Prepend(ts + [Token(Punctuation, [s[i]])], LexFrom(s, i + 1))
  {
    ScanSingle(s, i);
    EmitStep(s, i, ts, Token(Punctuation, [s[i]]), i + 1);
  }

  /** The tokenize loop over the whole input: a failure names a character of
      the input that is outside the alphabet. */
  function Lex(s: string): (r: LexResult)
    ensures r.LexFailed? ==> r.at < |s| && r.bad == s[r.at] && !Accepted(r.bad)
  {
    LexFromFailsAtFirstBadChar(s, 0);
    LexFrom(s, 0)
  }

  /** The shape of every token the lexer can produce. */
  predicate WellFormed(t: Token) {
    match t.category
    case Keyword => t.value in Reserved
    case Ide =>
      |t.value| > 0 && IsLetter(t.value[0])
      && (forall k :: 0 <= k < |t.value| ==> IsLetterOrDigit(t.value[k]))
      && ToUpper(t.value) !in Reserved
    case Num => |t.value| > 0 && AllDigits(t.value)
    case Operator => t.value in OperatorSpellings
    case Punctuation => t.value in PunctuationSpellings
  }

  /** The tokens written out with one space after each. */
  function Render(ts: seq<Token>): string {
    if ts == [] then [] else ts[0].value + " " + Render(ts[1..])
  }

  // ---------------------------------------------------------------------
  // Properties of the lexer
  // ---------------------------------------------------------------------

  /** Lexing fails exactly when some character is outside the accepted
      alphabet, and it then reports the first such character and its index. */
  lemma {:induction false} LexFromFailsAtFirstBadChar(s: string, i: nat)
    requires i <= |s|
    ensures LexFrom(s, i).LexFailed? <==> exists k :: i <= k < |s| && !Accepted(s[k])
    ensures LexFrom(s, i).LexFailed? ==>
      var k := LexFrom(s, i).at;
      i <= k < |s| && s[k] == LexFrom(s, i).bad && !Accepted(s[k])
      && forall m :: i <= m < k ==> Accepted(s[m])
    decreases |s| - i
  {
    if i < |s| {
      match Scan(s, i)
      case Skip => LexFromFailsAtFirstBadChar(s, i + 1);
      case Stuck =>
      case Emit(t, j) => LexFromFailsAtFirstBadChar(s, j);
    }
  }

  lemma LexFailsAtFirstBadChar(s: string)
    ensures Lex(s).LexFailed? <==> exists k :: 0 <= k < |s| && !Accepted(s[k])
    ensures Lex(s).LexFailed? ==>
      var k := Lex(s).at;
      k < |s| && s[k] == Lex(s).bad && !Accepted(s[k]) && forall m :: 0 <= m < k ==> Accepted(s[m])
  {
    LexFromFailsAtFirstBadChar(s, 0);
  }

  lemma ScanWellFormed(s: string, i: nat)
    requires i < |s|
    ensures Scan(s, i).Emit? ==> WellFormed(Scan(s, i).token)
  {
    var c := s[i];
    if !IsWhitespace(c) && IsLetter(c) {
      var j := AlnumEnd(s, i);
      var w := s[i..j];
      assert w[0] == c;
      assert forall k :: 0 <= k < |w| ==> w[k] == s[i + k];
    } else if !IsWhitespace(c) && IsDigit(c) {
      var j := DigitEnd(s, i);
      assert forall k :: 0 <= k < |s[i..j]| ==> s[i..j][k] == s[i + k];
    }
  }

  /** Every token the lexer returns is well formed. */
  lemma {:induction false} LexFromWellFormed(s: string, i: nat)
    requires i <= |s|
    ensures LexFrom(s, i).Lexed? ==> forall t :: t in LexFrom(s, i).tokens ==> WellFormed(t)
    decreases |s| - i
  {
    if i < |s| {
      match Scan(s, i)
      case Skip => LexFromWellFormed(s, i + 1);
      case Stuck =>
      case Emit(t, j) =>
        ScanWellFormed(s, i);
        LexFromWellFormed(s, j);
    }
  }

  lemma LexWellFormed(s: string)
    ensures Lex(s).Lexed? ==> forall t :: t in Lex(s).tokens ==> WellFormed(t)
  {
    LexFromWellFormed(s, 0);
  }

  /** Lexing yields no token at all exactly when the input is blank. */
  lemma {:induction false} LexFromEmptyIffBlank(s: string, i: nat)
    requires i <= |s|
    ensures LexFrom(s, i) == Lexed([]) <==> forall k :: i <= k < |s| ==> IsWhitespace(s[k])
    decreases |s| - i
  {
    if i < |s| {
      match Scan(s, i)
      case Skip => LexFromEmptyIffBlank(s, i + 1);
      case Stuck =>
      case Emit(t, j) =>
    }
  }

  lemma LexEmptyIffBlank(s: string)
    ensures Lex(s) == Lexed([]) <==> forall k :: 0 <= k < |s| ==> IsWhitespace(s[k])
  {
    LexFromEmptyIffBlank(s, 0);
  }

  /** The operators `:=`, `>=` and `<=` win over their one-character prefixes;
      without a following `=`, `:` is punctuation and `>` and `<` are operators. */
  lemma TwoCharacterOperatorsWin(s: string, i: nat)
    requires i < |s| && (s[i] == ':' || s[i] == '<' || s[i] == '>')
    ensures i + 1 < |s| && s[i + 1] == '=' ==> Scan(s, i) == Emit(Token(Operator, [s[i], '=']), i + 2)
    ensures !(i + 1 < |s| && s[i + 1] == '=') ==>
      Scan(s, i) == Emit(Token(if s[i] == ':' then Punctuation else Operator, [s[i]]), i + 1)
  {}

  lemma {:induction false} AlnumEndOfWord(s: string, i: nat, w: string)
    requires i + |w| <= |s| && s[i..i + |w|] == w
    requires forall k :: 0 <= k < |w| ==> IsLetterOrDigit(w[k])
    requires i + |w| == |s| || !IsLetterOrDigit(s[i + |w|])
    ensures AlnumEnd(s, i) == i + |w|
    decreases |w|
  {
    if w != [] {
      assert s[i] == w[0];
      assert s[i + 1..i + 1 + |w[1..]|] == w[1..];
      AlnumEndOfWord(s, i + 1, w[1..]);
    }
  }

  lemma {:induction false} DigitEndOfNumeral(s: string, i: nat, w: string)
    requires i + |w| <= |s| && s[i..i + |w|] == w
    requires AllDigits(w)
    requires i + |w| == |s| || !IsDigit(s[i + |w|])
    ensures DigitEnd(s, i) == i + |w|
    decreases |w|
  {
    if w != [] {
      assert s[i] == w[0];
      assert s[i + 1..i + 1 + |w[1..]|] == w[1..];
      DigitEndOfNumeral(s, i + 1, w[1..]);
    }
  }

  /** A letter-led run of letters and digits lexes to one token: a keyword
      holding the upper-cased spelling when that spelling is reserved, and
      otherwise an identifier keeping the run as written. */
  lemma WordClassification(w: string)
    requires |w| > 0 && IsLetter(w[0])
    requires forall k :: 0 <= k < |w| ==> IsLetterOrDigit(w[k])
    ensures Lex(w).Lexed? && |Lex(w).tokens| == 1
    ensures var t := Lex(w).tokens[0];
      (t.category == Keyword <==> ToUpper(w) in Reserved)
      && (ToUpper(w) in Reserved ==> t.value == ToUpper(w))
      && (ToUpper(w) !in Reserved ==> t == Token(Ide, w))
  {
    AlnumEndOfWord(w, 0, w);
    assert w[0..|w|] == w;
    assert Scan(w, 0) == Emit(Word(w), |w|);
    assert LexFrom(w, |w|) == Lexed([]);
  }

  /** Keywords are recognised whatever the case of their letters. */
  lemma KeywordsIgnoreCase(w: string)
    requires |w| > 0 && IsLetter(w[0])
    requires forall k :: 0 <= k < |w| ==> IsLetterOrDigit(w[k])
    requires ToUpper(w) in Reserved
    ensures Lex(w) == Lex(ToUpper(w)) == Lexed([Token(Keyword, ToUpper(w))])
  {
    var u := ToUpper(w);
    ReservedIsUpper(u);
    WordToken(w);
    assert IsLetter(u[0]);
    WordToken(u);
  }

  /** Lex of a single letter-led word is the one token Word gives. */
  lemma WordToken(w: string)
    requires |w| > 0 && IsLetter(w[0])
    requires forall k :: 0 <= k < |w| ==> IsLetterOrDigit(w[k])
    ensures Lex(w) == Lexed([Word(w)])
  {
    AlnumEndOfWord(w, 0, w);
    assert w[0..|w|] == w;
    assert Scan(w, 0) == Emit(Word(w), |w|);
    assert LexFrom(w, |w|) == Lexed([]);
  }

  lemma ScanLetter(s: string, i: nat)
    requires i < |s| && IsLetter(s[i])
    ensures Scan(s, i) == Emit(Word(s[i..AlnumEnd(s, i)]), AlnumEnd(s, i))
  {}

  lemma ScanDigits(s: string, i: nat)
    requires i < |s| && IsDigit(s[i])
    ensures Scan(s, i) == Emit(Token(Num, s[i..DigitEnd(s, i)]), DigitEnd(s, i))
  {}

  lemma ScanSingle(s: string, i: nat)
    requires i < |s| && (IsArithmeticOrEquals(s[i]) || IsSeparator(s[i]))
    ensures Scan(s, i) == Emit(Token(if IsSeparator(s[i]) then Punctuation else Operator, [s[i]]), i + 1)
  {}

  lemma ReservedIsUpper(v: string)
    requires v in Reserved
    ensures |v| > 0 && forall k :: 0 <= k < |v| ==> IsUpper(v[k])
    ensures ToUpper(v) == v
  {
    assert forall k :: 0 <= k < |v| ==> IsUpper(v[k]);
    assert forall k :: 0 <= k < |v| ==> ToUpper(v)[k] == v[k];
  }

  lemma ScanRenderedWord(s: string, i: nat, t: Token)
    requires WellFormed(t) && (t.category == Keyword || t.category == Ide)
    requires i + |t.value| < |s| && s[i..i + |t.value|] == t.value && s[i + |t.value|] == ' '
    ensures Scan(s, i) == Emit(t, i + |t.value|)
  {
    var v := t.value;
    if t.category == Keyword {
      ReservedIsUpper(v);
    }
    assert s[i] == v[0];
    assert forall k :: 0 <= k < |v| ==> IsLetterOrDigit(v[k]);
    AlnumEndOfWord(s, i, v);
    ScanLetter(s, i);
    assert Word(v) == t;
  }

  lemma ScanRenderedNumber(s: string, i: nat, t: Token)
    requires WellFormed(t) && t.category == Num
    requires i + |t.value| < |s| && s[i..i + |t.value|] == t.value && s[i + |t.value|] == ' '
    ensures Scan(s, i) == Emit(t, i + |t.value|)
  {
    var v := t.value;
    assert s[i] == v[0];
    DigitEndOfNumeral(s, i, v);
    assert s[i..DigitEnd(s, i)] == v;
  }

  lemma ScanRenderedSymbol(s: string, i: nat, t: Token)
    requires WellFormed(t) && (t.category == Operator || t.category == Punctuation)
    requires i + |t.value| < |s| && s[i..i + |t.value|] == t.value && s[i + |t.value|] == ' '
    ensures Scan(s, i) == Emit(t, i + |t.value|)
  {
    var v := t.value;
    assert s[i] == v[0];
    if |v| == 2 {
      assert s[i + 1] == v[1] == '=';
      assert v == [s[i], '='];
    } else {
      assert |v| == 1 && v == [s[i]];
      assert s[i + 1] == ' ';
    }
  }

  lemma ScanRendered(s: string, i: nat, t: Token)
    requires WellFormed(t)
    requires i + |t.value| < |s| && s[i..i + |t.value|] == t.value && s[i + |t.value|] == ' '
    ensures Scan(s, i) == Emit(t, i + |t.value|)
  {
    match t.category
    case Keyword => ScanRenderedWord(s, i, t);
    case Ide => ScanRenderedWord(s, i, t);
    case Num => ScanRenderedNumber(s, i, t);
    case Operator => ScanRenderedSymbol(s, i, t);
    case Punctuation => ScanRenderedSymbol(s, i, t);
  }

  /** Lexing the rendered form of well-formed tokens gives the same tokens back. */
  lemma {:induction false} LexFromRendered(s: string, i: nat, ts: seq<Token>)
    requires forall t :: t in ts ==> WellFormed(t)
    requires i <= |s| && s[i..] == Render(ts)
    ensures LexFrom(s, i) == Lexed(ts)
    decreases ts
  {
    if ts == [] {
      assert i == |s|;
    } else {
      var t := ts[0];
      var n := |t.value|;
      assert s[i..] == t.value + " " + Render(ts[1..]);
      assert s[i..i + n] == t.value;
      assert s[i + n] == ' ';
      ScanRendered(s, i, t);
      assert Scan(s, i + n) == Skip;
      assert s[i + n + 1..] == Render(ts[1..]);
      LexFromRendered(s, i + n + 1, ts[1..]);
      assert [t] + ts[1..] == ts;
    }
  }

  lemma LexRendered(ts: seq<Token>)
    requires forall t :: t in ts ==> WellFormed(t)
    ensures Lex(Render(ts)) == Lexed(ts)
  {
    LexFromRendered(Render(ts), 0, ts);
  }

  // ----- The inner loops of the hand-written lexers -----

  /** The inner loop of tokenize in script.py and script.java for a word:
      the letter/digit run at i. */
  method ReadAlnum(s: string, i: nat) returns (word: string, index: nat)
    requires i <= |s|
    ensures index == AlnumEnd(s, i) && word == s[i..index]
  {
    word, index := "", i;
    while index < |s| && IsLetterOrDigit(s[index])
      invariant i <= index <= |s| && word == s[i..index]
      invariant AlnumEnd(s, index) == AlnumEnd(s, i)
      decreases |s| - index
    {
      word := word + [s[index]];
      index := index + 1;
    }
  }

  /** The inner loop of tokenize in script.py and script.java for a number:
      the digit run at i. */
  method ReadNumber(s: string, i: nat) returns (number: string, index: nat)
    requires i <= |s|
    ensures index == DigitEnd(s, i) && number == s[i..index]
  {
    number, index := "", i;
    while index < |s| && IsDigit(s[index])
      invariant i <= index <= |s| && number == s[i..index]
      invariant DigitEnd(s, index) == DigitEnd(s, i)
      decreases |s| - index
    {
      number := number + [s[index]];
      index := index + 1;
    }
  }
}
