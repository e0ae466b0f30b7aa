/**
 * The regex-table lexer shared by SingleFileParser.java and
 * tempCodeRunnerFile.py. Both walk the same table of token rules in the same
 * order; at each input position the first rule whose pattern matches there
 * wins and the input advances past its (greedy) match. The two programs
 * differ in their keyword set (the Python one has OF) and in what the regex
 * class `\s` matches.
 */
module TableLexer {
  import opened Chars

  /** Token types. A keyword token's type is the keyword itself. */
  datatype Kind =
    | Number | Identifier | Assign | Plus | Minus | Star | Slash | Eq | Gt | Lt
    | LParen | RParen | Semi | Colon | Comma | Whitespace | Keyword(word: string)

  datatype Token = Token(kind: Kind, text: string)

  /** The regular expressions of the table: `\d+`, `[A-Z][A-Z0-9]*`, a fixed
      string, `\s+`. */
  datatype Pattern = Digits | UpperWord | Literal(text: string) | Spaces

  datatype TokenSpec = TokenSpec(kind: Kind, pattern: Pattern)

  /** Which regex engine reads the table. */
  datatype Flavor = JavaRegex | PythonRegex

  /** The rule table, in the order both programs try it. */
  const Specs: seq<TokenSpec> := [
    TokenSpec(Number, Digits),
    TokenSpec(Identifier, UpperWord),
    TokenSpec(Assign, Literal(":=")),
    TokenSpec(Plus, Literal("+")),
    TokenSpec(Minus, Literal("-")),
    TokenSpec(Star, Literal("*")),
    TokenSpec(Slash, Literal("/")),
    TokenSpec(Eq, Literal("=")),
    TokenSpec(Gt, Literal(">")),
    TokenSpec(Lt, Literal("<")),
    TokenSpec(LParen, Literal("(")),
    TokenSpec(RParen, Literal(")")),
    TokenSpec(Semi, Literal(";")),
    TokenSpec(Colon, Literal(":")),
    TokenSpec(Comma, Literal(",")),
    TokenSpec(Whitespace, Spaces)
  ]

  /** SingleFileParser.java has nine keywords; tempCodeRunnerFile.py adds OF. */
  function Keywords(f: Flavor): set<string> {
    match f
    case JavaRegex => {"LET", "GO", "TO", "READ", "PRINT", "IF", "THEN", "ELSE", "END"}
    case PythonRegex => {"LET", "GO", "TO", "OF", "READ", "PRINT", "IF", "THEN", "ELSE", "END"}
  }

  /** `\s`: Java's class leaves out U+001C..U+001F, Python's str class keeps them. */
  predicate RegexSpace(f: Flavor, c: char) {
    match f
    case JavaRegex => IsJavaRegexSpace(c)
    case PythonRegex => IsWhitespace(c)
  }

  /** The characters a repeated part of a pattern accepts. */
  predicate InRun(f: Flavor, p: Pattern, c: char) {
    match p
    case Digits => IsDigit(c)
    case UpperWord => IsUpper(c) || IsDigit(c)
    case Spaces => RegexSpace(f, c)
    case Literal(_) => false
  }

  function RunEnd(f: Flavor, p: Pattern, s: string, i: nat): (j: nat)
    requires i <= |s|
    ensures i <= j <= |s|
    ensures forall k :: i <= k < j ==> InRun(f, p, s[k])
    ensures j == |s| || !InRun(f, p, s[j])
    decreases |s| - i
  {
    if i < |s| && InRun(f, p, s[i]) then RunEnd(f, p, s, i + 1) else i
  }

  datatype Span = NoMatch | MatchTo(end: nat)

  /** Where a match of the pattern anchored at i ends; the quantifiers are greedy. */
  function MatchEnd(f: Flavor, p: Pattern, s: string, i: nat): (r: Span)
    requires i <= |s|
    ensures r.MatchTo? ==> i < r.end <= |s|
  {
    match p
    case Literal(t) =>
      if |t| > 0 && i + |t| <= |s| && s[i..i + |t|] == t then MatchTo(i + |t|) else NoMatch
    case Digits => if i < |s| && IsDigit(s[i]) then MatchTo(RunEnd(f, p, s, i)) else NoMatch
    case UpperWord => if i < |s| && IsUpper(s[i]) then MatchTo(RunEnd(f, p, s, i + 1)) else NoMatch
    case Spaces => if i < |s| && RegexSpace(f, s[i]) then MatchTo(RunEnd(f, p, s, i)) else NoMatch
  }

  datatype RuleMatch = NoRule | Hit(kind: Kind, end: nat)

  /** The first rule of Specs[k..] that matches at i. */
  function FirstMatch(f: Flavor, s: string, i: nat, k: nat): (r: RuleMatch)
    requires i <= |s| && k <= |Specs|
    ensures r.Hit? ==> i < r.end <= |s|
    decreases |Specs| - k
  {
    if k == |Specs| then NoRule
    else match MatchEnd(f, Specs[k].pattern, s, i)
      case MatchTo(e) => Hit(Specs[k].kind, e)
      case NoMatch => FirstMatch(f, s, i, k + 1)
  }

  /** What one match adds to the token list: an IDENTIFIER match that is a
      keyword becomes a token of that keyword's type, whitespace adds nothing. */
  function Emitted(f: Flavor, kind: Kind, text: string): seq<Token> {
    if kind == Identifier then
      if text in Keywords(f) then [Token(Keyword(text), text)] else [Token(Identifier, text)]
    else if kind == Whitespace then []
    else [Token(kind, text)]
  }

  /** The token list, or the LexerException / ErroLexico with the position and
      the character no rule matched. */
  datatype Lexed = Tokens(tokens: seq<Token>) | LexerError(at: nat, ch: char)

  function Prepend(ts: seq<Token>, r: Lexed): Lexed {
    if r.Tokens? then Tokens(ts + r.tokens) else r
  }

  /** Tokenizing from index i on: an error names a character at or after i. */
  function TokenizeFrom(f: Flavor, s: string, i: nat): (r: Lexed)
    requires i <= |s|
    ensures r.LexerError? ==> i <= r.at < |s| && r.ch == s[r.at]
    decreases |s| - i
  {
    if i == |s| then Tokens([])
    else match FirstMatch(f, s, i, 0)
      case NoRule => LexerError(i, s[i])
      case Hit(kind, j) => Prepend(Emitted(f, kind, s[i..j]), TokenizeFrom(f, s, j))
  }

  /** tokenize over the whole input. */
  function Tokenize(f: Flavor, s: string): (r: Lexed)
    ensures r.LexerError? ==> r.at < |s| && r.ch == s[r.at]
  {
    TokenizeFrom(f, s, 0)
  }

  /** One turn of the outer loop, seen from the tokens already generated. */
  lemma TokenizeStep(f: Flavor, s: string, i: nat, ts: seq<Token>)
    requires i < |s|
    ensures var h := FirstMatch(f, s, i, 0);
      Prepend(ts, TokenizeFrom(f, s, i)) ==
        if h.NoRule? then LexerError(i, s[i])
        else Prepend(ts + Emitted(f, h.kind, s[i..h.end]), TokenizeFrom(f, s, h.end))
  {
    match FirstMatch(f, s, i, 0)
    case NoRule =>
    case Hit(kind, j) =>
      var e := Emitted(f, kind, s[i..j]);
      var rest := TokenizeFrom(f, s, j);
      if rest.Tokens? {
        assert ts + (e + rest.tokens) == (ts + e) + rest.tokens;
      }
  }

  // ----- What the table does, rule by rule -----

  predicate IsSymbol(c: char) {
    c == ':' || c == '+' || c == '-' || c == '*' || c == '/' || c == '=' || c == '>' || c == '<'
    || c == '(' || c == ')' || c == ';' || c == ','
  }

  /** A character some rule of the table can start a match with. */
  predicate Accepted(f: Flavor, c: char) {
    IsDigit(c) || IsUpper(c) || IsSymbol(c) || RegexSpace(f, c)
  }

  /** The kind of the single-character rule for a symbol other than ':'. */
  function SymbolKind(c: char): Kind
    requires IsSymbol(c) && c != ':'
  {
    if c == '+' then Plus else if c == '-' then Minus else if c == '*' then Star
    else if c == '/' then Slash else if c == '=' then Eq else if c == '>' then Gt
    else if c == '<' then Lt else if c == '(' then LParen else if c == ')' then RParen
    else if c == ';' then Semi else Comma
  }

  /** The table read as one decision: digits first, then words, then `:=`
      before `:`, then the other symbols, then whitespace. */
  function DecideRule(f: Flavor, s: string, i: nat): RuleMatch
    requires i < |s|
  {
    var c := s[i];
    if IsDigit(c) then Hit(Number, RunEnd(f, Digits, s, i))
    else if IsUpper(c) then Hit(Identifier, RunEnd(f, UpperWord, s, i + 1))
    else if c == ':' then
      if i + 1 < |s| && s[i + 1] == '=' then Hit(Assign, i + 2) else Hit(Colon, i + 1)
    else if IsSymbol(c) then Hit(SymbolKind(c), i + 1)
    else if RegexSpace(f, c) then Hit(Whitespace, RunEnd(f, Spaces, s, i))
    else NoRule
  }

  /** A one-character rule that does not match is passed over. */
  lemma SkipRule(f: Flavor, s: string, i: nat, k: nat)
    requires i < |s| && k < |Specs| && Specs[k].pattern.Literal?
    requires |Specs[k].pattern.text| == 1 && s[i] != Specs[k].pattern.text[0]
    ensures FirstMatch(f, s, i, k) == FirstMatch(f, s, i, k + 1)
  {
    assert s[i..i + 1][0] == s[i];
  }

  /** A one-character rule that matches wins. */
  lemma TakeRule(f: Flavor, s: string, i: nat, k: nat)
    requires i < |s| && k < |Specs| && Specs[k].pattern.Literal?
    requires |Specs[k].pattern.text| == 1 && s[i] == Specs[k].pattern.text[0]
    ensures FirstMatch(f, s, i, k) == Hit(Specs[k].kind, i + 1)
  {
    assert s[i..i + 1] == Specs[k].pattern.text;
  }

  /** Rules 3 to 5: `+ - *`. */
  lemma SymbolRules(f: Flavor, s: string, i: nat)
    requires i < |s| && !IsDigit(s[i]) && !IsUpper(s[i]) && s[i] != ':'
    ensures FirstMatch(f, s, i, 3) == DecideRule(f, s, i)
  {
    var c := s[i];
    if c == '+' { TakeRule(f, s, i, 3); return; }
    SkipRule(f, s, i, 3);
    if c == '-' { TakeRule(f, s, i, 4); return; }
    SkipRule(f, s, i, 4);
    if c == '*' { TakeRule(f, s, i, 5); return; }
    SkipRule(f, s, i, 5);
    MiddleSymbolRules(f, s, i);
  }

  /** Rules 6 to 8: `/ = >`. */
  lemma MiddleSymbolRules(f: Flavor, s: string, i: nat)
    requires i < |s| && !IsDigit(s[i]) && !IsUpper(s[i])
    requires s[i] != ':' && s[i] != '+' && s[i] != '-' && s[i] != '*'
    ensures FirstMatch(f, s, i, 6) == DecideRule(f, s, i)
  {
    var c := s[i];
    if c == '/' { TakeRule(f, s, i, 6); return; }
    SkipRule(f, s, i, 6);
    if c == '=' { TakeRule(f, s, i, 7); return; }
    SkipRule(f, s, i, 7);
    if c == '>' { TakeRule(f, s, i, 8); return; }
    SkipRule(f, s, i, 8);
    LaterSymbolRules(f, s, i);
  }

  /** Rules 9 to 11: `< ( )`. */
  lemma LaterSymbolRules(f: Flavor, s: string, i: nat)
    requires i < |s| && !IsDigit(s[i]) && !IsUpper(s[i])
    requires s[i] != ':' && s[i] != '+' && s[i] != '-' && s[i] != '*' && s[i] != '/' && s[i] != '=' && s[i] != '>'
    ensures FirstMatch(f, s, i, 9) == DecideRule(f, s, i)
  {
    var c := s[i];
    if c == '<' { TakeRule(f, s, i, 9); return; }
    SkipRule(f, s, i, 9);
    if c == '(' { TakeRule(f, s, i, 10); return; }
    SkipRule(f, s, i, 10);
    if c == ')' { TakeRule(f, s, i, 11); return; }
    SkipRule(f, s, i, 11);
    LastSymbolRules(f, s, i);
  }

  /** Rules 12 to 15: `; : ,` and then `\s+`. */
  lemma LastSymbolRules(f: Flavor, s: string, i: nat)
    requires i < |s| && !IsDigit(s[i]) && !IsUpper(s[i])
    requires s[i] != ':' && s[i] != '+' && s[i] != '-' && s[i] != '*' && s[i] != '/' && s[i] != '=' && s[i] != '>'
    requires s[i] != '<' && s[i] != '(' && s[i] != ')'
    ensures FirstMatch(f, s, i, 12) == DecideRule(f, s, i)
  {
    var c := s[i];
    if c == ';' { TakeRule(f, s, i, 12); return; }
    SkipRule(f, s, i, 12);
    SkipRule(f, s, i, 13);
    if c == ',' { TakeRule(f, s, i, 14); return; }
    SkipRule(f, s, i, 14);
  }

  /** With `:=` ruled out, a colon passes rules 3 to 12 and meets rule 13. */
  lemma ColonRule(f: Flavor, s: string, i: nat)
    requires i < |s| && s[i] == ':'
    ensures FirstMatch(f, s, i, 3) == Hit(Colon, i + 1)
  {
    SkipRule(f, s, i, 3);
    SkipRule(f, s, i, 4);
    SkipRule(f, s, i, 5);
    ColonMiddleRules(f, s, i);
  }

  lemma ColonMiddleRules(f: Flavor, s: string, i: nat)
    requires i < |s| && s[i] == ':'
    ensures FirstMatch(f, s, i, 6) == Hit(Colon, i + 1)
  {
    SkipRule(f, s, i, 6);
    SkipRule(f, s, i, 7);
    ColonLateRules(f, s, i);
  }

  lemma ColonLateRules(f: Flavor, s: string, i: nat)
    requires i < |s| && s[i] == ':'
    ensures FirstMatch(f, s, i, 8) == Hit(Colon, i + 1)
  {
    SkipRule(f, s, i, 8);
    SkipRule(f, s, i, 9);
    ColonLaterRules(f, s, i);
  }

  lemma ColonLaterRules(f: Flavor, s: string, i: nat)
    requires i < |s| && s[i] == ':'
    ensures FirstMatch(f, s, i, 10) == Hit(Colon, i + 1)
  {
    SkipRule(f, s, i, 10);
    SkipRule(f, s, i, 11);
    SkipRule(f, s, i, 12);
    TakeRule(f, s, i, 13);
  }

  /** Trying the rules in order is the decision above. */
  lemma FirstMatchDecides(f: Flavor, s: string, i: nat)
    requires i < |s|
    ensures FirstMatch(f, s, i, 0) == DecideRule(f, s, i)
  {
    var c := s[i];
    if !IsDigit(c) {
      assert FirstMatch(f, s, i, 0) == FirstMatch(f, s, i, 1);
      if !IsUpper(c) {
        assert FirstMatch(f, s, i, 1) == FirstMatch(f, s, i, 2);
        if c == ':' && i + 1 < |s| && s[i + 1] == '=' {
          assert s[i..i + 2] == ":=";
        } else {
          assert MatchEnd(f, Literal(":="), s, i) == NoMatch by {
            if i + 2 <= |s| { assert s[i..i + 2][0] == c && s[i..i + 2][1] == s[i + 1]; }
          }
          assert FirstMatch(f, s, i, 2) == FirstMatch(f, s, i, 3);
          if c == ':' {
            ColonRule(f, s, i);
          } else {
            SymbolRules(f, s, i);
          }
        }
      }
    }
  }

  /** Every character of a match is one the table accepts. */
  lemma MatchIsAccepted(f: Flavor, s: string, i: nat)
    requires i < |s|
    ensures FirstMatch(f, s, i, 0).Hit? <==> Accepted(f, s[i])
    ensures FirstMatch(f, s, i, 0).Hit? ==> forall k :: i <= k < FirstMatch(f, s, i, 0).end ==> Accepted(f, s[k])
  {
    FirstMatchDecides(f, s, i);
    DecisionIsAccepted(f, s, i);
  }

  lemma DecisionIsAccepted(f: Flavor, s: string, i: nat)
    requires i < |s|
    ensures DecideRule(f, s, i).Hit? <==> Accepted(f, s[i])
    ensures DecideRule(f, s, i).Hit? ==> forall k :: i <= k < DecideRule(f, s, i).end ==> Accepted(f, s[k])
  {
  }

  /** A lexer error is raised exactly at the first character no rule accepts. */
  lemma {:induction false} TokenizeFromFailsAtFirstBadChar(f: Flavor, s: string, i: nat)
    requires i <= |s|
    ensures TokenizeFrom(f, s, i).LexerError? <==> exists k :: i <= k < |s| && !Accepted(f, s[k])
    ensures TokenizeFrom(f, s, i).LexerError? ==>
      var e := TokenizeFrom(f, s, i);
      i <= e.at < |s| && e.ch == s[e.at] && !Accepted(f, e.ch)
      && forall k :: i <= k < e.at ==> Accepted(f, s[k])
    decreases |s| - i
  {
    if i < |s| {
      MatchIsAccepted(f, s, i);
      match FirstMatch(f, s, i, 0)
      case NoRule =>
      case Hit(kind, j) =>
        TokenizeFromFailsAtFirstBadChar(f, s, j);
        if exists k :: i <= k < |s| && !Accepted(f, s[k]) {
          var k :| i <= k < |s| && !Accepted(f, s[k]);
          assert j <= k;
        }
    }
  }

  lemma TokenizeFailsAtFirstBadChar(f: Flavor, s: string)
    ensures Tokenize(f, s).LexerError? <==> exists k :: 0 <= k < |s| && !Accepted(f, s[k])
    ensures Tokenize(f, s).LexerError? ==>
      var e := Tokenize(f, s);
      e.at < |s| && e.ch == s[e.at] && !Accepted(f, e.ch) && forall k :: 0 <= k < e.at ==> Accepted(f, s[k])
  {
    TokenizeFromFailsAtFirstBadChar(f, s, 0);
  }

  /** The shape of every token the table lexer produces. */
  predicate WellFormed(f: Flavor, t: Token) {
    match t.kind
    case Number => |t.text| > 0 && AllDigits(t.text)
    case Identifier =>
      |t.text| > 0 && IsUpper(t.text[0]) && (forall k :: 0 <= k < |t.text| ==> IsUpper(t.text[k]) || IsDigit(t.text[k]))
      && t.text !in Keywords(f)
    case Keyword(w) => t.text == w && w in Keywords(f)
    case Whitespace => false
    case Assign => t.text == ":="
    case Colon => t.text == ":"
    case _ => |t.text| == 1 && IsSymbol(t.text[0]) && t.text[0] != ':' && SymbolKind(t.text[0]) == t.kind
  }

  lemma EmittedWellFormed(f: Flavor, s: string, i: nat)
    requires i < |s| && DecideRule(f, s, i).Hit?
    ensures var h := DecideRule(f, s, i);
      forall t :: t in Emitted(f, h.kind, s[i..h.end]) ==> WellFormed(f, t)
  {
    var h := DecideRule(f, s, i);
    var w := s[i..h.end];
    if h.kind == Number {
      assert AllDigits(w);
    } else if h.kind == Identifier {
      assert w[0] == s[i];
      assert forall k :: 0 <= k < |w| ==> w[k] == s[i + k];
    } else if h.kind == Assign {
      assert w == s[i..i + 2] == [s[i], s[i + 1]];
    } else if h.kind != Whitespace {
      assert w == [s[i]];
    }
  }

  lemma {:induction false} TokenizeFromWellFormed(f: Flavor, s: string, i: nat)
    requires i <= |s| && TokenizeFrom(f, s, i).Tokens?
    ensures forall t :: t in TokenizeFrom(f, s, i).tokens ==> WellFormed(f, t)
    decreases |s| - i
  {
    if i < |s| {
      var h := FirstMatch(f, s, i, 0);
      FirstMatchDecides(f, s, i);
      EmittedWellFormed(f, s, i);
      TokenizeFromWellFormed(f, s, h.end);
    }
  }

  /** No whitespace token survives, keywords come only from the flavour's set,
      and identifiers are upper-case words that are not keywords. */
  lemma TokenizeWellFormed(f: Flavor, s: string)
    requires Tokenize(f, s).Tokens?
    ensures forall t :: t in Tokenize(f, s).tokens ==> WellFormed(f, t)
  {
    TokenizeFromWellFormed(f, s, 0);
  }

  /** The word OF is lexed by the identifier rule. */
  lemma OfIsOneWord(f: Flavor)
    ensures Tokenize(f, "OF") == Tokens(Emitted(f, Identifier, "OF"))
  {
    var s := "OF";
    FirstMatchDecides(f, s, 0);
    assert RunEnd(f, UpperWord, s, 1) == 2;
    assert s[0..2] == s;
  }

  /** OF is a keyword for tempCodeRunnerFile.py and an identifier for SingleFileParser.java. */
  lemma OfDependsOnFlavor()
    ensures Tokenize(PythonRegex, "OF") == Tokens([Token(Keyword("OF"), "OF")])
    ensures Tokenize(JavaRegex, "OF") == Tokens([Token(Identifier, "OF")])
  {
    OfIsKeywordForPython();
    OfIsIdentifierForJava();
  }

  lemma OfIsKeywordForPython()
    ensures Tokenize(PythonRegex, "OF") == Tokens([Token(Keyword("OF"), "OF")])
  {
    OfIsOneWord(PythonRegex);
  }

  lemma OfIsIdentifierForJava()
    ensures Tokenize(JavaRegex, "OF") == Tokens([Token(Identifier, "OF")])
  {
    OfIsOneWord(JavaRegex);
  }

  /** An information separator is skipped by the Python lexer and rejected by the Java one. */
  lemma InformationSeparatorDependsOnFlavor()
    ensures Tokenize(PythonRegex, "\U{1C}") == Tokens([])
    ensures Tokenize(JavaRegex, "\U{1C}") == LexerError(0, '\U{1C}')
  {
    FirstMatchDecides(PythonRegex, "\U{1C}", 0);
    FirstMatchDecides(JavaRegex, "\U{1C}", 0);
  }

  /** Lower-case letters are never accepted: identifiers must be upper case. */
  lemma LowerCaseRejected(f: Flavor, s: string, k: nat)
    requires k < |s| && IsLower(s[k])
    ensures Tokenize(f, s).LexerError?
  {
    TokenizeFailsAtFirstBadChar(f, s);
  }

  /** `>=` is two tokens for both flavours: there is no rule for it. */
  lemma GreaterOrEqualIsTwoTokens(f: Flavor)
    ensures Tokenize(f, ">=") == Tokens([Token(Gt, ">"), Token(Eq, "=")])
  {
    var s := ">=";
    GreaterOrEqualTail(f);
    TokenizeFromDecides(f, s, 0);
    assert DecideRule(f, s, 0) == Hit(Gt, 1);
    assert s[0..1] == ">";
  }

  lemma GreaterOrEqualTail(f: Flavor)
    ensures TokenizeFrom(f, ">=", 1) == Tokens([Token(Eq, "=")])
  {
    var s := ">=";
    TokenizeFromDecides(f, s, 1);
    assert DecideRule(f, s, 1) == Hit(Eq, 2);
    assert s[1..2] == "=";
  }

  /** One turn of the lexer loop, with the table read as one decision. */
  lemma TokenizeFromDecides(f: Flavor, s: string, i: nat)
    requires i < |s|
    ensures var h := DecideRule(f, s, i);
      TokenizeFrom(f, s, i) ==
        if h.NoRule? then LexerError(i, s[i])
        else Prepend(Emitted(f, h.kind, s[i..h.end]), TokenizeFrom(f, s, h.end))
  {
    FirstMatchDecides(f, s, i);
  }

  // ----- Reading the token list -----

  /** There is a token at p and its type is k: the test of matchToken and _combinar_token. */
  predicate At(toks: seq<Token>, p: nat, k: Kind) {
    p < |toks| && toks[p].kind == k
  }

  /** How a parsing method ends: normally with the cursor at pos, or by
      throwing error with the cursor left at pos. */
  datatype Outcome<E> = Ok(pos: nat) | Thrown(error: E, pos: nat)
}
