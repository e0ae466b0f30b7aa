# Front ends for a small BASIC-like language, modelled in Dafny

The repository holds five independent front ends for the same teaching
language. A program is a `;`-separated sequence of commands closed by `END`.
The commands are `LET x := e`, `GO TO label`, the computed jump
`GO TO n OF l1, ..., lk`, `READ x, ...`, `PRINT e, ...` and
`IF e rel e THEN c ELSE c`, and any command may carry a label `L:`. Each front
end turns the source text into tokens and then accepts or rejects the program
by recursive descent. This project models all five:

| source | lexer | parser | Dafny modules |
|---|---|---|---|
| `Main.java` (`LexerParser`) | hand-written loop | first error stops everything | `HandLexer`, `MainGrammar`, `MainJava`, `MainProperties`, `MainPrograms` |
| `script.py` | hand-written loop | module globals, print-and-continue | `HandLexer`, `ScriptPyGrammar`, `ScriptPy`, `ScriptPyProperties`, `CrossVersion` |
| `script.java` (`BasicParser`) | hand-written `switch` | expression layer only | `ScriptJava` |
| `SingleFileParser.java` | ordered regex table | exceptions, term/factor precedence | `TableLexer`, `SingleFileGrammar`, `SingleFileJava`, `SingleFileProperties`, `TablePrograms`, `SingleFilePrograms` |
| `tempCodeRunnerFile.py` (`AnalisadorSintaticoArquivoUnico`) | ordered regex table | exceptions, term/factor precedence | `TableLexer`, `TempRunnerGrammar`, `TempRunnerPy`, `TempRunnerProperties`, `TablePrograms`, `TempRunnerPrograms` |

The three hand-written lexers behave the same on ASCII input when the Java
virtual machine runs under a non-Turkic default locale (see "## Left out"). They share one
specification, `HandLexer.Lex`, and each source's loop is a method proved equal
to it. The two table-driven lexers are one specification,
`TableLexer.Tokenize`, parameterised by the table flavour. The two flavours
differ in two ways: the keyword set (the Python table has `OF`, the Java one
does not) and what `\s` matches (Java's excludes U+001C..U+001F, Python's
includes them).

Each parser is modelled twice:

- a pure specification: one function per grammar rule, over the token
  sequence and a parser state;
- a `class` with the source's mutable fields (`tokens`, the cursor, the label
  set, the error flag, the printed lines), with one method per source method.

Every method's `ensures` states that its new state is the one the
specification function computes from the old state. The lemmas then state
properties of the specification functions. These include the program shapes
each parser accepts, the error cases, and label and range checks. Further
lemmas compare the variants with one another: where Main.java and script.py
agree, where the two table-driven parsers agree, and concrete inputs on which
they part ways.

For Main.java, SingleFileParser.java and tempCodeRunnerFile.py, a module of
program trees (`MainPrograms`, `SingleFilePrograms`, `TempRunnerPrograms`,
with the shared sums and lists in `TablePrograms`) defines the commands each
parser calls well formed and how they are written as tokens. It then proves,
rule by rule, that each grammar function reads exactly the written form of
such a tree: a `...Reads` lemma for every tree, an `...Of` lemma for every
input accepted. Each of these modules ends in `AcceptsExactlyPrograms`: the
parser accepts a token list if and only if it is a well-formed program
followed by END. script.py gets the completeness half through Main.java's
trees (`CrossVersion.ScriptAcceptsPrograms`).

Printed messages are modelled as values (`Diag`, `Message`), not as their
Portuguese text. `script.py` keeps its output as a log of such values because
its verdict is whatever it has printed. Exceptions become `Result` values that
carry the error kind and the cursor position.

Where the code departs from the BASIC grammar these programs are meant to
accept, the model follows the code:

- Main.java has no empty command. `;` or `END` in command position is an
  error, so `L: END` is rejected with "unexpected END".
- script.py treats `END`, `TO`, `OF`, `THEN` and `ELSE` in command position as
  an empty command.
- script.py keeps going after an error in two places. An unclosed parenthesis
  prints one message per nesting level. Its operator loop does not test
  `error_found`.
- The table-driven parsers:
  - have no `>=` or `<=` (these lex as two tokens);
  - accept only upper-case identifiers;
  - check neither duplicate labels nor jump ranges.
- SingleFileParser.java:
  - has no `OF` keyword, so there is no computed jump;
  - allows any number of labels before a command;
  - refuses `THEN` directly followed by `ELSE`, but accepts `THEN L: ELSE`,
    where the THEN branch is a label in front of an empty command;
  - accepts `; END`.
- tempCodeRunnerFile.py:
  - allows at most one label;
  - refuses `;` before `END`;
  - reads `GO TO L OF l1, ..., lk`: a label, then a label list.

## Model

| member | source | states |
|---|---|---|
| Chars.ToUpper | Main.java:121 | `toUpperCase` on ASCII under a non-Turkic default locale: the length is kept and each character is the upper-case form of the one it replaces |
| HandLexer.AlnumEnd | Main.java:116-119 | the end of the letter/digit run: every character before it is a letter or digit, and the character at it (if any) is not |
| HandLexer.DigitEnd | Main.java:131-134 | the end of the digit run: every character before it is a digit, and the character at it (if any) is not |
| HandLexer.Scan | Main.java:106-186 | one turn of the lexing loop: it skips exactly on whitespace and is stuck exactly on a character outside the alphabet; otherwise it emits one token over accepted characters and moves strictly forward |
| HandLexer.LexFromFailsAtFirstBadChar | Main.java:184-186 | lexing from index i fails iff some character from i on is outside the alphabet; it then reports the first such character and its index |
| HandLexer.LexFailsAtFirstBadChar | script.py:61-63 | the same for the whole input: the invalid-character error names the first bad character and its position |
| HandLexer.Lex | Main.java:102-189 | the lexing loop over the whole input: a failure names an index of the input and the character there, which is outside the alphabet |
| HandLexer.ScanWellFormed | Main.java:114-182 | every token one turn emits is well formed for its category |
| HandLexer.LexFromWellFormed | Main.java:102-189 | every token lexed from index i is well formed |
| HandLexer.LexWellFormed | Main.java:102-189 | every token of a successful lexing is well formed: keywords are reserved upper-case words, identifiers are letter-led letter/digit runs that are not reserved, numbers are digit runs, operators and punctuation are the fixed spellings |
| HandLexer.LexFromEmptyIffBlank | Main.java:109-112 | lexing from i yields no tokens iff every character from i on is whitespace |
| HandLexer.LexEmptyIffBlank | script.py:17-21 | the input yields no token iff it is blank |
| HandLexer.TwoCharacterOperatorsWin | Main.java:139-170 | `:=`, `>=` and `<=` become one token each; a lone `:` is punctuation; lone `>` and `<` are operators |
| HandLexer.WordClassification | Main.java:114-127 | a letter-led letter/digit word lexes to exactly one token: a keyword iff its upper-case spelling is reserved (then holding that spelling), otherwise an identifier as written |
| HandLexer.KeywordsIgnoreCase | Main.java:121-125 | every casing of a reserved word lexes to the same keyword token |
| HandLexer.LexFromRendered | Main.java:102-189 | lexing the rendering of well-formed tokens (each followed by a space) from any index returns those tokens |
| HandLexer.LexRendered | Main.java:102-189 | round trip: `Lex(Render(ts))` gives back `ts` for every well-formed token list |
| HandLexer.ReadAlnum | script.py:24-26 | the inner loop stops exactly at `AlnumEnd` and collects that run |
| HandLexer.ReadNumber | script.py:33-35 | the inner loop stops exactly at `DigitEnd` and collects that run |
| MainGrammar.Factor | Main.java:230-243 | `Follows`: the cursor only moves forward within the tokens; the label set only grows; a state already in error is returned unchanged; without a new error the log is unchanged; a new error appends exactly one message. Labels are untouched; what a factor reads is stated both ways by MainProperties.FactorReadsOperand and MainProperties.OperandOf: exactly one operand |
| MainGrammar.Expression | Main.java:245-253 | `Follows`, labels untouched; MainProperties.ExpressionIsFlatChain states that, for a stop before the end of the tokens, it reads a run in full iff the run is a flat chain of operands |
| MainGrammar.ExprTail | Main.java:248-252 | `Follows`, labels untouched; MainProperties.ExprTailReadsSteps and MainProperties.StepsOf state both ways that it reads exactly operator/operand steps |
| MainGrammar.LetRule | Main.java:304-312 | `Follows`, labels untouched; MainPrograms.LetRuleReads and MainPrograms.LetRuleOf state both ways that it reads exactly `x := e` |
| MainGrammar.LabelTail | Main.java:340-346 | `Follows`, labels untouched, and the count of labels read never goes down |
| MainGrammar.ComputedGoRule | Main.java:325-356 | `Follows`, labels untouched |
| MainGrammar.GoRule | Main.java:314-360 | `Follows`, labels untouched |
| MainGrammar.ReadTail | Main.java:368-374 | `Follows`, labels untouched; MainPrograms.ReadTailReads and MainPrograms.ReadTailOf state both ways that it reads exactly `, n2 , ... , nk` |
| MainGrammar.ReadRule | Main.java:362-375 | `Follows`, labels untouched; MainPrograms.ReadRuleReads and MainPrograms.ReadRuleOf state both ways that it reads exactly a non-empty identifier list |
| MainGrammar.PrintTail | Main.java:380-383 | `Follows`; MainPrograms.PrintTailReads and MainPrograms.PrintTailOf state both ways that it reads exactly `, e2 , ... , ek` |
| MainGrammar.PrintRule | Main.java:377-384 | `Follows`; MainPrograms.PrintRuleReads and MainPrograms.PrintRuleOf state both ways that it reads exactly a non-empty expression list |
| MainGrammar.IfRule | Main.java:386-410 | `Follows`; MainPrograms.IfRuleLaid and MainPrograms.IfRuleOf state both ways that it reads exactly `e1 rel e2 THEN` and goes on to the branches |
| MainGrammar.ThenElse | Main.java:398-409 | `Follows`; MainPrograms.ThenElseLaid and MainPrograms.ThenElseOf state both ways that it reads exactly `c1 ELSE c2` |
| MainGrammar.Command | Main.java:275-421 | `Follows`; MainPrograms.CommandReads and MainPrograms.CmdOf state both ways that it reads exactly a well-formed command |
| MainGrammar.CommandSeq | Main.java:255-273 | `Follows`; MainPrograms.SeqReads and MainPrograms.SeqOf state both ways that it reads exactly `c1 ; ... ; cn` up to END |
| MainGrammar.Report | Main.java:191-196 | the error flag is set and the cursor and labels are kept; only the first error of a parse adds a diagnostic, at the cursor |
| MainGrammar.ParseInt | Main.java:349 | `Integer.parseInt` of a label-list numeral: defined exactly on non-empty digit strings whose value fits an `int`, and then their decimal value |
| MainGrammar.JumpCheck | Main.java:348-355 | the range check keeps cursor and labels, and leaves the state without error iff it had none and the numeral parses to n with 1 <= n <= k |
| MainGrammar.ParseTokens | Main.java:443-476 | on a token list, accepted iff no error was reported; an accepted list printed no diagnostic and ends with `END` |
| MainGrammar.ParseInput | Main.java:423-477 | an accepted input lexes and printed no diagnostic; an input that does not lex is rejected with exactly one diagnostic, at an index of the input |
| MainJava.LexerParser.constructor | Main.java:98-100 | a fresh parser: no labels, no tokens, cursor 0, no error, nothing printed |
| MainJava.LexerParser.Tokenize | Main.java:102-189 | returns true iff the input lexes; then the token list is `Lex`'s; otherwise the error flag is set and exactly one lexical-error message names the first bad character and its index |
| MainJava.LexerParser.ReadToken | Main.java:114-186 | one turn of the loop on a non-blank character: fails iff the character is outside the alphabet, and then leaves the tokens and index alone; on success it moves forward, and the tokens so far plus the lexing of the rest equal the lexing from the old index |
| MainJava.LexerParser.ReadLettersAndDigits | Main.java:116-119 | the inner loop ends at `AlnumEnd` |
| MainJava.LexerParser.ReadDigits | Main.java:131-134 | the inner loop ends at `DigitEnd` |
| MainJava.LexerParser.ReportError | Main.java:191-196 | only the first error of a parse is printed; the flag is set in every case |
| MainJava.LexerParser.ConsumeToken | Main.java:205-210 | moves past the current token, never beyond the end |
| MainJava.LexerParser.MatchAndConsume | Main.java:212-219 | true iff the current token has the category and value; only then the cursor moves one token |
| MainJava.LexerParser.MatchCategoryAndConsume | Main.java:221-228 | true iff the current token has the category; only then the cursor moves one token |
| MainJava.LexerParser.Factor | Main.java:230-243 | the new state is `MainGrammar.Factor` of the old one |
| MainJava.LexerParser.Expression | Main.java:245-253 | the new state is `MainGrammar.Expression` of the old one |
| MainJava.LexerParser.CommandSequence | Main.java:255-273 | the new state is `MainGrammar.CommandSeq` of the old one |
| MainJava.LexerParser.LetCommand | Main.java:304-312 | the new state is `MainGrammar.LetRule` of the old one |
| MainJava.LexerParser.GoCommand | Main.java:314-360 | the new state is `MainGrammar.GoRule` of the old one |
| MainJava.LexerParser.ComputedGo | Main.java:325-356 | the new state is `MainGrammar.ComputedGoRule` of the old one |
| MainJava.LexerParser.ReadCommand | Main.java:362-375 | the new state is `MainGrammar.ReadRule` of the old one |
| MainJava.LexerParser.PrintCommand | Main.java:377-384 | the new state is `MainGrammar.PrintRule` of the old one |
| MainJava.LexerParser.IfCommand | Main.java:386-410 | the new state is `MainGrammar.IfRule` of the old one |
| MainJava.LexerParser.ThenElse | Main.java:398-409 | the new state is `MainGrammar.ThenElse` of the old one |
| MainJava.LexerParser.Command | Main.java:275-421 | the new state is `MainGrammar.Command` of the old one |
| MainJava.LexerParser.Parse | Main.java:423-477 | the verdict and the final fields are those of `MainGrammar.ParseInput(input)`, whatever the fields held before the call: `parse` starts from cursor 0, no labels and no error, so labels of an earlier call never cause a duplicate error |
| MainProperties.NoTokensOnlyForBlankInput | Main.java:438-441 | input that lexes to no tokens is blank after `trim`, so the "no tokens for non-blank input" abort never fires |
| MainProperties.BlankInputIsEmptyProgram | Main.java:443-447 | blank input is reported as an empty program and rejected |
| MainProperties.CommandSeqStopsAtEnd | Main.java:255-273 | a command sequence that ends without error stops at the end of the tokens or in front of `END` |
| MainProperties.ParseReportsExactlyOneErrorOnFailure | Main.java:423-477 | a rejected program has printed exactly one diagnostic (the abort line after a lexical error and the summary lines are the verdict, not kept in the log); an accepted one has printed none |
| MainProperties.AcceptedProgramsEndWithEnd | Main.java:454-476 | an accepted input lexes, its last token is `END`, and every token has been read unless the program is the lone `END` |
| MainProperties.LabelDefinitions | Main.java:279-292 | a label already defined is reported as a duplicate; a new one is added to the set and the command after `:` is parsed |
| MainProperties.LabelTailCounts | Main.java:340-346 | the label-list loop reads `, l2, ..., lk` in full, stops at the first token that is not `,`, and adds the number of labels read to the count |
| MainProperties.ComputedGoReadsList | Main.java:331-355 | after `GO TO n`, `OF l1, ..., lk` not followed by `,` is read in full, and the range check then runs with k labels |
| MainProperties.ComputedJumpChecksRange | Main.java:347-355 | `GO TO n OF l1, ..., lk` with a numeral n that fits an `int` reads the whole list; it is accepted iff 1 <= n <= k, and otherwise the out-of-range error is reported after the list |
| MainProperties.FactorReadsOperand | Main.java:230-243 | a factor reads exactly one identifier, number or parenthesised expression |
| MainProperties.ExpressionReadsExpr | Main.java:245-253 | an expression reads exactly a flat chain of operands joined by `+ - * /` |
| MainProperties.ExprTailReadsSteps | Main.java:248-252 | the operator loop reads exactly the operator/operand steps in front of it |
| MainProperties.UnclosedParenthesis | Main.java:235-240 | `(` followed by an expression but no `)` reports the missing `)` right after the inner expression |
| MainProperties.OperandOf | Main.java:230-243 | when `factor` meets no error and stops inside the tokens, it has read exactly one well-formed operand: a number, an identifier, or a parenthesised chain |
| MainProperties.StepsOf | Main.java:248-252 | when the operator loop of `expression` meets no error, it has read operator/operand steps and stops where no `+ - * /` stands |
| MainProperties.ExprOf | Main.java:245-253 | when `expression` meets no error, it has read one well-formed chain of operands and no `+ - * /` follows it |
| MainProperties.ExpressionIsFlatChain | Main.java:230-253 | for q before the end of the tokens, `expression` stops at q without error if and only if the tokens it passes over are a well-formed chain of operands and no `+ - * /` stands at q |
| MainPrograms.ExprReads | Main.java:245-253 | a well-formed expression laid out at the cursor, with no `+ - * /` after it, is read in full and nothing else changes |
| MainPrograms.LetRuleReads | Main.java:304-312 | once `LET` is consumed, `x := e` with a well-formed `e` is read in full |
| MainPrograms.LetRuleOf | Main.java:304-312 | once `LET` is consumed, what is read without error is an identifier, `:=` and a well-formed expression |
| MainPrograms.GoRuleOf | Main.java:314-360 | once `GO` is consumed, what is read without error is `TO l`, or `TO n OF l1 , ... , lk` with n between 1 and k |
| MainPrograms.LabelTailOf | Main.java:340-346 | what the label-list loop reads without error is `, l2 , ... , lk`, and the count grows by the number of labels |
| MainPrograms.ReadTailReads | Main.java:368-374 | the READ loop reads `, n2 , ... , nk` in full when no comma follows |
| MainPrograms.ReadTailOf | Main.java:368-374 | what the READ loop reads without error is `, n2 , ... , nk` |
| MainPrograms.ReadRuleReads | Main.java:362-375 | once `READ` is consumed, a non-empty identifier list is read in full |
| MainPrograms.ReadRuleOf | Main.java:362-375 | what `READ` reads without error is a non-empty identifier list |
| MainPrograms.PrintTailReads | Main.java:380-383 | the PRINT loop reads `, e2 , ... , ek` of well-formed expressions in full |
| MainPrograms.PrintTailOf | Main.java:380-383 | what the PRINT loop reads without error is `, e2 , ... , ek` of well-formed expressions |
| MainPrograms.PrintRuleReads | Main.java:377-384 | once `PRINT` is consumed, a non-empty list of well-formed expressions is read in full |
| MainPrograms.PrintRuleOf | Main.java:377-384 | what `PRINT` reads without error is a non-empty list of well-formed expressions |
| MainPrograms.IfRuleLaid | Main.java:386-397 | `e1 rel e2 THEN` after `IF` is read, and the parse goes on with the branches |
| MainPrograms.IfRuleOf | Main.java:386-397 | what the IF condition reads without error is `e1 rel e2 THEN`, with rel one of `= > >= < <=` |
| MainPrograms.ThenElseLaid | Main.java:398-409 | `c1 ELSE c2` with new, distinct labels is read in full and adds the labels of both branches |
| MainPrograms.ThenElseOf | Main.java:398-409 | what the branches read without error is `c1 ELSE c2` of well-formed commands with new, distinct labels |
| MainPrograms.CommandReads | Main.java:275-421 | a well-formed command with new, distinct labels, followed by `;`, END or ELSE, is read in full and adds exactly its labels |
| MainPrograms.LabelledReads | Main.java:279-293 | a labelled command is read in full when its labels are new and distinct |
| MainPrograms.LetReads | Main.java:304-312 | a `LET` command is read in full |
| MainPrograms.ComputedJumpReads | Main.java:314-360 | `GO TO n OF l1 , ... , lk` with n in range is read in full |
| MainPrograms.ReadReads | Main.java:362-375 | a `READ` command is read in full |
| MainPrograms.PrintReads | Main.java:377-384 | a `PRINT` command is read in full |
| MainPrograms.IfReads | Main.java:386-410 | an `IF` command is read in full and adds the labels of its branches |
| MainPrograms.CmdOf | Main.java:275-421 | what `command` reads without error is a well-formed command with new, distinct labels, and the label set grows by exactly those labels |
| MainPrograms.SimpleOf | Main.java:304-384 | the same for `LET`, `GO`, `READ` and `PRINT` |
| MainPrograms.LabelledOf | Main.java:279-293 | the same for a labelled command |
| MainPrograms.IfOf | Main.java:386-410 | the same for `IF` |
| MainPrograms.SeqReads | Main.java:255-273 | `c1 ; ... ; cn`, with or without a final `;`, of well-formed commands with new, distinct labels is read up to END and adds exactly their labels |
| MainPrograms.SeqOf | Main.java:255-273 | what `commandSequence` reads without error up to END is such a sequence |
| MainPrograms.ProgramAccepted | Main.java:423-477 | `parse` accepts every well-formed program followed by END, and ends with exactly its labels defined |
| MainPrograms.AcceptedIsProgram | Main.java:423-477 | every token list `parse` accepts is a well-formed program followed by END |
| MainPrograms.AcceptsExactlyPrograms | Main.java:423-477 | `parse` accepts a token list if and only if it is a well-formed program followed by END |
| MainPrograms.ExamplesAccepted | Main.java:423-477 | `END` and `LET A := 1 + 2; PRINT A; END` are accepted |
| MainPrograms.ExampleMissingAssign | Main.java:308-310 | `LET A = 1; END` is rejected at token 2 for the missing `:=` |
| MainPrograms.ExampleJumpOutOfRange | Main.java:347-355 | `GO TO 3 OF L1, L2; END` is rejected after the list: 3 is out of range for 2 labels |
| MainPrograms.ExampleDuplicateLabel | Main.java:285-288 | `L1: PRINT 1; L1: PRINT 2; END` is rejected at the second `L1` |
| MainPrograms.ExampleMissingCloseParen | Main.java:236-238 | `LET A := (1 + 2; END` is rejected where `)` should be |
| ScriptPyGrammar.Factor | script.py:82-99 | `Advances`: the cursor only moves forward within the tokens; the label set only grows; the error flag, once set, stays set; output is only appended; no new output without an error; a new error prints at least one line. Labels are untouched, and a state already in error is returned unchanged; CrossVersion.FactorsCoincide states that it ends as Main.java's factor does, error or not, so MainProperties.FactorReadsOperand and OperandOf carry over |
| ScriptPyGrammar.Expression | script.py:73-80 | `Advances`, labels untouched, and a state already in error is returned unchanged; CrossVersion.ScriptExpressionIsFlatChain states that, for a stop before the end of the tokens, it reads a run in full iff the run is a flat chain of operands |
| ScriptPyGrammar.ExprLoop | script.py:78-80 | `Advances`, labels untouched; after an error nothing more is printed; CrossVersion.ExprTailsCoincide states that it ends as Main.java's operator loop does, error or not |
| ScriptPyGrammar.LetRule | script.py:129-142 | `Advances`, labels untouched; CrossVersion.LetAgrees states that it reads what Main.java's does, and CrossVersion.ScriptCommandReads that it reads every well-formed command |
| ScriptPyGrammar.LabelLoop | script.py:158-169 | `Advances`, labels untouched, and the count of labels goes up; CrossVersion.LabelsAgree states that it reads what Main.java's does, and CrossVersion.ScriptCommandReads that it reads every well-formed command |
| ScriptPyGrammar.ComputedGoRule | script.py:150-181 | `Advances`, labels untouched; CrossVersion.ComputedGoAgrees states that it reads what Main.java's does, and CrossVersion.ScriptCommandReads that it reads every well-formed command |
| ScriptPyGrammar.GoRule | script.py:143-193 | `Advances`, labels untouched; CrossVersion.GoAgrees states that it reads what Main.java's does, and CrossVersion.ScriptCommandReads that it reads every well-formed command |
| ScriptPyGrammar.ReadLoop | script.py:198-208 | `Advances`, labels untouched; CrossVersion.ReadListsAgree states that it reads what Main.java's does, and CrossVersion.ScriptCommandReads that it reads every well-formed command |
| ScriptPyGrammar.ReadRule | script.py:194-211 | `Advances`, labels untouched; CrossVersion.ReadAgrees states that it reads what Main.java's does, and CrossVersion.ScriptCommandReads that it reads every well-formed command |
| ScriptPyGrammar.PrintLoop | script.py:219-227 | `Advances`, labels untouched; CrossVersion.PrintListsAgree states that it reads what Main.java's does, and CrossVersion.ScriptCommandReads that it reads every well-formed command |
| ScriptPyGrammar.PrintRule | script.py:213-231 | `Advances`, labels untouched; CrossVersion.PrintAgrees states that it reads what Main.java's does, and CrossVersion.ScriptCommandReads that it reads every well-formed command |
| ScriptPyGrammar.IfRule | script.py:233-257 | `Advances`; CrossVersion.IfAgrees states that it reads what Main.java's does, and CrossVersion.ScriptCommandReads that it reads every well-formed command |
| ScriptPyGrammar.ThenElse | script.py:242-250 | `Advances`; CrossVersion.ThenElseAgrees states that it reads what Main.java's does, and CrossVersion.ScriptCommandReads that it reads every well-formed command |
| ScriptPyGrammar.Command | script.py:123-283 | `Advances`, and a state already in error is returned unchanged; CrossVersion.ScriptCommandReads states that it reads every well-formed command in full |
| ScriptPyGrammar.CommandSeq | script.py:102-119 | `Advances`; CrossVersion.ScriptAcceptsPrograms states that a well-formed program is read up to END and accepted |
| ScriptPyGrammar.PyInt | script.py:171 | `int()` of a token succeeds iff the token is a non-empty digit string, and then gives its value |
| ScriptPyGrammar.Fail | script.py:174-175 | an error line is printed after what was printed before and the flag is set; cursor and labels are kept |
| ScriptPyGrammar.Say | script.py:305 | a line is printed after what was printed before; cursor, labels and flag are kept |
| ScriptPyGrammar.RangeCheck | script.py:170-178 | the range check keeps cursor and labels and only appends output; it leaves the state without error iff it had none and `int()` of the numeral is n with 1 <= n <= k, and then changes nothing |
| ScriptPyGrammar.ParseTokens | script.py:295-326 | on a token list, `parse` prints at least one line after what it printed already; ScriptPyProperties.ParsePrintsVerdict and AcceptedProgramsEndWithEnd state the verdict |
| ScriptPyGrammar.ParseInput | script.py:287-326 | `parse` first echoes the input and prints at least one more line; input that does not lex leaves cursor, labels and error flag as they were |
| ScriptPy.Tokenize | script.py:14-64 | the token list of `Lex` on success; otherwise nothing, after printing exactly the invalid-character line |
| ScriptPy.ReadToken | script.py:22-63 | one loop turn: fails iff the character is outside the alphabet; on success the tokens so far plus the lexing of the rest are unchanged |
| ScriptPy.ScriptModule.constructor | script.py:67-70 | the module globals as loaded: no tokens, position 0, no labels, no error, nothing printed |
| ScriptPy.ScriptModule.Factor | script.py:82-99 | the new globals are `ScriptPyGrammar.Factor` of the old ones |
| ScriptPy.ScriptModule.Expression | script.py:73-80 | the new globals are `ScriptPyGrammar.Expression` of the old ones |
| ScriptPy.ScriptModule.CommandSequence | script.py:102-119 | the new globals are `ScriptPyGrammar.CommandSeq` of the old ones |
| ScriptPy.ScriptModule.Command | script.py:123-283 | the new globals are `ScriptPyGrammar.Command` of the old ones |
| ScriptPy.ScriptModule.LetCommand | script.py:129-142 | the new globals are `ScriptPyGrammar.LetRule` of the old ones |
| ScriptPy.ScriptModule.GoCommand | script.py:143-193 | the new globals are `ScriptPyGrammar.GoRule` of the old ones |
| ScriptPy.ScriptModule.ComputedGo | script.py:150-181 | the new globals are `ScriptPyGrammar.ComputedGoRule` of the old ones |
| ScriptPy.ScriptModule.ReadCommand | script.py:194-211 | the new globals are `ScriptPyGrammar.ReadRule` of the old ones |
| ScriptPy.ScriptModule.PrintCommand | script.py:213-231 | the new globals are `ScriptPyGrammar.PrintRule` of the old ones |
| ScriptPy.ScriptModule.IfCommand | script.py:233-257 | the new globals are `ScriptPyGrammar.IfRule` of the old ones |
| ScriptPy.ScriptModule.ThenElse | script.py:242-250 | the new globals are `ScriptPyGrammar.ThenElse` of the old ones |
| ScriptPy.ScriptModule.Parse | script.py:287-326 | the echo of the input, the verdict and the final globals are those of `ScriptPyGrammar.ParseInput(code)` |
| ScriptPy.ScriptModule.Conclude | script.py:310-326 | the new globals are `ScriptPyGrammar.Conclude` of the old ones: the verdict line after the command sequence |
| ScriptPyProperties.ParseInputPrintsVerdict | script.py:287-326 | every call first echoes the input and then prints at least one line, and the last is the success line only when it is the only one after the echo; input that does not lex prints the echo, the invalid-character line and the abort line and leaves `position`, `labels_defined` and `error_found` as the previous call left them (the global `tokens` becomes `None`, which this function does not track); the input is accepted iff exactly the echo and the success line are printed |
| ScriptPyProperties.ParsePrintsVerdict | script.py:300-326 | on tokens, at least one line is printed after what was printed before, and the last is the success line only when it is the only new one; an error in the command sequence ends the output with the failure line after the earlier messages |
| ScriptPyProperties.CommandSeqStops | script.py:102-119 | a command sequence that ends without error stops at the end of the tokens, in front of `END`, or in front of a token other than `;` |
| ScriptPyProperties.AcceptedProgramsEndWithEnd | script.py:310-326 | an accepted input lexes, its last token is `END`, and every token has been read unless the program is the lone `END` |
| ScriptPyProperties.KeywordWithoutCommandIsSkipped | script.py:260-265 | a keyword other than `LET`, `GO`, `READ`, `PRINT` and `IF` in command position (`END`, `TO`, `OF`, `THEN`, `ELSE`) is an empty command: the globals are unchanged |
| ScriptPyProperties.LabelDefinitions | script.py:268-278 | a label already defined is reported as a duplicate without being consumed; a new one is added and the command after `:` parsed |
| ScriptPyProperties.LabelLoopCounts | script.py:158-169 | the label loop, entered on the first label, reads `l1, ..., lk` in full, stops at the first token that is not `,`, and adds k to the count |
| ScriptPyProperties.ComputedGoReadsList | script.py:153-178 | after `GO TO n`, `OF l1, ..., lk` not followed by `,` is read in full, and the range check then runs with k labels |
| ScriptPyProperties.ComputedJumpChecksRange | script.py:170-178 | `GO TO n OF l1, ..., lk` with any numeral n reads the whole list; it is accepted iff 1 <= n <= k, and otherwise the out-of-range line is printed |
| ScriptPyProperties.RangeCheckOfNumeral | script.py:171-178 | the range check of a numeral keeps the globals iff its decimal value n satisfies 1 <= n <= k, and otherwise prints the out-of-range line |
| ScriptPyProperties.UnclosedParensReportedPerLevel | script.py:89-95 | on `((...(x` with n unclosed `(`, factor reads all n + 1 tokens and prints the missing-`)` line once per nesting level |
| ScriptPyProperties.OperatorLoopSkipsAfterError | script.py:78-80 | once an error is set, the operator loop still steps to the end of the run of `+ - * /` tokens in front of it and leaves everything else unchanged |
| ScriptJava.ArithTextPieces | script.java:112 | the values the loop accepts as operators are exactly the substrings of `"+-*/"`, including the empty string |
| ScriptJava.OperatorTestAgrees | script.java:112 | on lexer tokens, the substring test holds iff the token is one of `+ - * /` |
| ScriptJava.CloseTestAgrees | script.java:127 | on lexer tokens, the value test for `)` holds iff the token is the `)` punctuation |
| ScriptJava.JFactor | script.java:119-137 | script.py's `Advances` invariant with labels untouched, and a state already in error is returned unchanged |
| ScriptJava.JExpression | script.java:110-117 | script.py's `Advances` invariant with labels untouched, and a state already in error is returned unchanged |
| ScriptJava.JExprLoop | script.java:112-115 | script.py's `Advances` invariant with labels untouched; after an error nothing more is printed |
| ScriptJava.FactorAgrees | script.java:119-137 | on well-formed tokens, `factor` here ends in the same state as script.py's `factor` |
| ScriptJava.ExpressionAgrees | script.java:110-117 | on well-formed tokens, `expression` here ends in the same state as script.py's |
| ScriptJava.ExprLoopAgrees | script.java:112-115 | on well-formed tokens, the operator loop here ends in the same state as script.py's |
| ScriptJava.OperatorRunDiverges | script.java:112 | on `A +- B`, with a `+-` token the lexer never builds, script.java's expression reads all three tokens and script.py's stops after `A` |
| ScriptJava.Start | script.java:177-195 | `parse` aborts iff lexing fails; when it goes on to the command sequence, it holds `Lex`'s tokens, at least one of them |
| ScriptJava.LoneEndTestAgrees | script.java:192-195 | on lexer tokens, the value-only lone-`END` test holds iff the list is exactly the `END` keyword |
| ScriptJava.StartAgreesWithScriptPy | script.java:177-195 | where script.java stops before the command sequence, script.py prints the same lines, the echo of the input first, and ends in the same state; where it goes on, script.py has the same tokens and they are not the lone `END` |
| ScriptJava.BasicParser.constructor | script.java:30-35 | a fresh parser: an empty token list, position 0, no labels, no error, nothing printed |
| ScriptJava.BasicParser.Tokenize | script.java:38-107 | the token list of `Lex` on success; otherwise none, after printing the invalid-character line for the first bad character |
| ScriptJava.BasicParser.ReadSymbol | script.java:63-103 | a turn of the `switch`: no token iff the lexing step is stuck there, and otherwise the same token and next index as the lexing step |
| ScriptJava.BasicParser.Factor | script.java:119-137 | the new fields are `JFactor` of the old ones |
| ScriptJava.BasicParser.Expression | script.java:110-117 | the new fields are `JExpression` of the old ones |
| ScriptJava.BasicParser.Parse | script.java:177-195 | echoes the input first; goes on to the command sequence iff `Start` proceeds; an abort or an early answer prints what `Start` says, and going on stores `Start`'s tokens |
| CrossVersion.FactorAgrees | Main.java:230-243 | wherever Main.java's `factor` ends without error, script.py's ends at the same token with the same labels and no error |
| CrossVersion.ExpressionAgrees | Main.java:245-253 | the same for `expression` |
| CrossVersion.ExprTailAgrees | Main.java:248-252 | the same for the operator loop |
| CrossVersion.LetAgrees | Main.java:304-312 | the same for `LET` |
| CrossVersion.LabelsAgree | Main.java:340-346 | the same for the label-list loop |
| CrossVersion.ComputedGoAgrees | Main.java:325-356 | the same for the computed jump, range check included |
| CrossVersion.GoAgrees | Main.java:314-360 | the same for `GO TO` |
| CrossVersion.ReadListsAgree | Main.java:368-374 | the same for the `READ` identifier loop |
| CrossVersion.ReadAgrees | Main.java:362-375 | the same for `READ` |
| CrossVersion.PrintListsAgree | Main.java:380-383 | the same for the `PRINT` expression loop |
| CrossVersion.PrintAgrees | Main.java:377-384 | the same for `PRINT` |
| CrossVersion.IfAgrees | Main.java:386-410 | the same for `IF` |
| CrossVersion.ThenElseAgrees | Main.java:398-409 | the same for the branches |
| CrossVersion.CommandAgrees | Main.java:275-421 | the same for `command`, labels included |
| CrossVersion.CommandSeqAgrees | Main.java:255-273 | the same for the command sequence |
| CrossVersion.MainAcceptedTokensAreScriptAccepted | Main.java:449-476 | every token list Main.java accepts, script.py accepts: after what it printed already it prints only the success line |
| CrossVersion.MainAcceptedInputIsScriptAccepted | Main.java:423-477 | every input Main.java accepts, script.py accepts |
| CrossVersion.ScriptAcceptsMoreThanMain | Main.java:412-415 | on the tokens of `L: END`, script.py prints only the success line after what it printed already, while Main.java defines `L` and then reports an unexpected `END` |
| CrossVersion.ScriptAcceptsLabelledEndInput | Main.java:412-415 | on the input text `L: END`, script.py accepts and Main.java rejects |
| CrossVersion.FactorsCoincide | script.py:82-99 | from matching states, script.py's `factor` fails exactly when Main.java's does, and otherwise ends at the same token with the same labels |
| CrossVersion.ExprTailsCoincide | script.py:78-80 | the same for the operator loop of `expression` |
| CrossVersion.ExpressionsCoincide | script.py:73-80 | the same for `expression` |
| CrossVersion.ScriptExpressionIsFlatChain | script.py:73-99 | for q before the end of the tokens, script.py's `expression` stops at q without error if and only if the tokens it passes over are a well-formed chain of operands and no `+ - * /` stands at q |
| CrossVersion.ScriptCommandReads | script.py:123-283 | script.py's `command` reads in full every command Main.java's grammar calls well formed, with new, distinct labels and followed by `;`, END or ELSE |
| CrossVersion.ScriptAcceptsPrograms | script.py:287-326 | after what it printed already, script.py prints only the success line for every program Main.java's grammar calls well formed |
| TableLexer.FirstMatch | SingleFileParser.java:114-131 | a rule that matches covers at least one character and stays within the input |
| TableLexer.MatchEnd | SingleFileParser.java:117-122 | a match anchored at i covers at least one character and ends within the input |
| TableLexer.FirstMatchDecides | SingleFileParser.java:84-99 | trying the 16 rules in order equals one decision: a digit run, an upper-case word, `:=`, the single symbols, `:`, then a whitespace run |
| TableLexer.TokenizeStep | SingleFileParser.java:110-150 | one turn of the outer loop: with no matching rule, the error at that index; otherwise the match's tokens (a reserved identifier as its keyword, whitespace as nothing) are added and the loop goes on at the match end |
| TableLexer.MatchIsAccepted | SingleFileParser.java:114-131 | some rule matches iff the character is in the table's alphabet, and every character of the match is in it |
| TableLexer.TokenizeFromFailsAtFirstBadChar | SingleFileParser.java:146-149 | tokenizing from i fails iff some character from i on is outside the alphabet, and then names the first such character and its index |
| TableLexer.TokenizeFrom | SingleFileParser.java:105-152 | the tokenize loop from index i: an error names an index at or after i and the character there |
| TableLexer.Tokenize | tempCodeRunnerFile.py:42-68 | tokenize over the whole input: an error names an index of the input and the character there |
| TableLexer.TokenizeFailsAtFirstBadChar | SingleFileParser.java:146-149 | the same for the whole input |
| TableLexer.TokenizeFromWellFormed | SingleFileParser.java:119-136 | every token from index i on is well formed for its type |
| TableLexer.TokenizeWellFormed | SingleFileParser.java:119-136 | every token of a successful tokenize is well formed |
| TableLexer.OfDependsOnFlavor | SingleFileParser.java:69-71 | `OF` is a keyword for the Python table and an identifier for the Java one |
| TableLexer.InformationSeparatorDependsOnFlavor | SingleFileParser.java:99 | U+001C is whitespace for Python's `\s` and an invalid character for Java's |
| TableLexer.LowerCaseRejected | SingleFileParser.java:85 | any input holding a lower-case letter fails to tokenize |
| TableLexer.GreaterOrEqualIsTwoTokens | SingleFileParser.java:90-92 | `>=` lexes as `>` then `=` |
| TablePrograms.SumReads | SingleFileParser.java:273-331 | both table-driven parsers read a well-formed sum (terms of factors) in full when a stop token follows |
| TablePrograms.SumOf | tempCodeRunnerFile.py:155-176 | what either expression rule accepts is a well-formed sum, and both read the same one |
| TablePrograms.MoreNamesRead | SingleFileParser.java:348-363 | the identifier loops of both parsers and the label loop of tempCodeRunnerFile.py read `, n1 , ... , nk` in full when no comma follows |
| TablePrograms.SNamesOf | SingleFileParser.java:348-363 | what the Java identifier loop accepts is `, n1 , ... , nk` of identifiers |
| TablePrograms.TNamesOf | tempCodeRunnerFile.py:197-204 | what the Python identifier loop accepts is `, n1 , ... , nk` of identifiers |
| TablePrograms.TLabelsOf | tempCodeRunnerFile.py:185-188 | what the Python label loop accepts is `, l1 , ... , lk` of identifiers |
| TablePrograms.MoreExprsRead | SingleFileParser.java:373-393 | the expression-list loops of both parsers read `, e1 , ... , ek` in full |
| TablePrograms.MoreExprsOf | tempCodeRunnerFile.py:210-221 | what either expression-list loop accepts is `, e1 , ... , ek`, the same for both |
| TablePrograms.ExprsRead | SingleFileParser.java:373-393 | both expression lists read `e1 , ... , ek`, possibly empty, up to `;`, END or ELSE |
| TablePrograms.ExprsOf | tempCodeRunnerFile.py:210-221 | what either expression list accepts is `e1 , ... , ek`, the same for both |
| TablePrograms.ComparisonReads | SingleFileParser.java:413-423 | both comparisons read `e1 rel e2` in full when THEN follows |
| TablePrograms.ComparisonOf | tempCodeRunnerFile.py:231-241 | what either comparison accepts is `e1 rel e2` with rel one of `= > <`, the same for both |
| SingleFileGrammar.Factor | SingleFileParser.java:319-329 | the cursor stays within the tokens, and on success it has moved |
| SingleFileGrammar.Term | SingleFileParser.java:296-299 | the cursor stays within the tokens, and on success it has moved |
| SingleFileGrammar.TermTail | SingleFileParser.java:302-316 | the cursor stays within the tokens |
| SingleFileGrammar.Expression | SingleFileParser.java:273-276 | the cursor stays within the tokens, and on success it has moved |
| SingleFileGrammar.ExpressionTail | SingleFileParser.java:279-293 | the cursor stays within the tokens |
| SingleFileGrammar.Assignment | SingleFileParser.java:265-270 | the cursor stays within the tokens, and on success it has moved; SingleFilePrograms.LetReads and SingleFilePrograms.LetOf state both ways that a command on `LET` reads exactly `LET x := e` |
| SingleFileGrammar.Jump | SingleFileParser.java:333-338 | the cursor stays within the tokens, and on success it has moved; SingleFilePrograms.JumpReads and SingleFilePrograms.JumpOf state both ways that a command on `GO` reads exactly `GO TO l` |
| SingleFileGrammar.IdentifierTail | SingleFileParser.java:354-360 | the cursor stays within the tokens |
| SingleFileGrammar.IdentifierList | SingleFileParser.java:348-363 | the cursor stays within the tokens; SingleFilePrograms.ReadReads and SingleFilePrograms.ReadOf state both ways that it reads exactly an identifier list, possibly empty |
| SingleFileGrammar.Read | SingleFileParser.java:341-344 | the cursor stays within the tokens, and on success it has moved; SingleFilePrograms.ReadReads and SingleFilePrograms.ReadOf state what it reads, both ways |
| SingleFileGrammar.ExpressionListTail | SingleFileParser.java:382-391 | the cursor stays within the tokens |
| SingleFileGrammar.ExpressionList | SingleFileParser.java:373-393 | the cursor stays within the tokens; TablePrograms.ExprsRead and TablePrograms.ExprsOf state both ways that it reads exactly an expression list, possibly empty |
| SingleFileGrammar.Print | SingleFileParser.java:366-369 | the cursor stays within the tokens, and on success it has moved; SingleFilePrograms.PrintReads and SingleFilePrograms.PrintOf state what it reads, both ways |
| SingleFileGrammar.Comparison | SingleFileParser.java:413-423 | the cursor stays within the tokens, and on success it has moved; TablePrograms.ComparisonReads and TablePrograms.ComparisonOf state both ways that it reads exactly `e1 rel e2` |
| SingleFileGrammar.Decision | SingleFileParser.java:396-410 | the cursor stays within the tokens, and on success it has moved; SingleFilePrograms.IfReads and SingleFilePrograms.IfOf state both ways that it reads exactly an IF whose THEN branch takes tokens |
| SingleFileGrammar.Branches | SingleFileParser.java:406-409 | the cursor stays within the tokens, and on success it has moved; SingleFilePrograms.BranchesOf and SingleFilePrograms.BranchesReads state what it reads, both ways |
| SingleFileGrammar.Command | SingleFileParser.java:228-262 | the cursor stays within the tokens; SingleFilePrograms.CommandReads and SingleFilePrograms.CmdOf state both ways that it reads exactly a well-formed command |
| SingleFileGrammar.SequenceTail | SingleFileParser.java:216-225 | the cursor stays within the tokens; SingleFilePrograms.SeqReads and SingleFilePrograms.SeqOf state what the sequence reads, both ways |
| SingleFileGrammar.CommandSequence | SingleFileParser.java:209-212 | the cursor stays within the tokens; SingleFilePrograms.SeqReads and SingleFilePrograms.SeqOf state both ways that it reads exactly `c1 ; ... ; cn` |
| SingleFileGrammar.Program | SingleFileParser.java:198-206 | the cursor stays within the tokens; SingleFilePrograms.AcceptsExactlyPrograms states that it accepts exactly the well-formed programs followed by END |
| SingleFileGrammar.Parse | SingleFileParser.java:190-195 | a lexer exception names an index of the input and its character; a parse exception comes after tokenizing succeeded, at a token index within the list; success means the tokens end with `END` |
| SingleFileJava.SingleFileParser.constructor | SingleFileParser.java:81-100 | the parser holds the Java rule table, no tokens and cursor 0 |
| SingleFileJava.SingleFileParser.Tokenize | SingleFileParser.java:105-152 | the result is `TableLexer.Tokenize` with the Java table: the tokens, or the lexer exception at the first bad character |
| SingleFileJava.SingleFileParser.CurrentToken | SingleFileParser.java:157-162 | the token at the cursor, or none past the end |
| SingleFileJava.SingleFileParser.MatchToken | SingleFileParser.java:167-175 | true iff the current token has the type; only then the cursor moves one token |
| SingleFileJava.SingleFileParser.Parse | SingleFileParser.java:190-195 | the outcome is `SingleFileGrammar.Parse(input)`: a lexer exception, a parse exception, or success |
| SingleFileJava.SingleFileParser.ParseProgram | SingleFileParser.java:198-206 | the cursor and outcome are `SingleFileGrammar.Program` |
| SingleFileJava.SingleFileParser.ParseCommandSequence | SingleFileParser.java:209-212 | the cursor and outcome are `SingleFileGrammar.CommandSequence` |
| SingleFileJava.SingleFileParser.ParseSequenceTail | SingleFileParser.java:216-225 | the cursor and outcome are `SingleFileGrammar.SequenceTail` |
| SingleFileJava.SingleFileParser.ParseCommand | SingleFileParser.java:228-262 | the cursor and outcome are `SingleFileGrammar.Command` |
| SingleFileJava.SingleFileParser.ParseAssignment | SingleFileParser.java:265-270 | the cursor and outcome are `SingleFileGrammar.Assignment` |
| SingleFileJava.SingleFileParser.ParseExpression | SingleFileParser.java:273-276 | the cursor and outcome are `SingleFileGrammar.Expression` |
| SingleFileJava.SingleFileParser.ParseExpressionTail | SingleFileParser.java:279-293 | the cursor and outcome are `SingleFileGrammar.ExpressionTail` |
| SingleFileJava.SingleFileParser.ParseTerm | SingleFileParser.java:296-299 | the cursor and outcome are `SingleFileGrammar.Term` |
| SingleFileJava.SingleFileParser.ParseTermTail | SingleFileParser.java:302-316 | the cursor and outcome are `SingleFileGrammar.TermTail` |
| SingleFileJava.SingleFileParser.ParseFactor | SingleFileParser.java:319-329 | the cursor and outcome are `SingleFileGrammar.Factor` |
| SingleFileJava.SingleFileParser.ParseJump | SingleFileParser.java:333-338 | the cursor and outcome are `SingleFileGrammar.Jump` |
| SingleFileJava.SingleFileParser.ParseRead | SingleFileParser.java:341-344 | the cursor and outcome are `SingleFileGrammar.Read` |
| SingleFileJava.SingleFileParser.ParseIdentifierList | SingleFileParser.java:348-363 | the cursor and outcome are `SingleFileGrammar.IdentifierList` |
| SingleFileJava.SingleFileParser.ParsePrint | SingleFileParser.java:366-369 | the cursor and outcome are `SingleFileGrammar.Print` |
| SingleFileJava.SingleFileParser.ParseExpressionList | SingleFileParser.java:373-393 | the cursor and outcome are `SingleFileGrammar.ExpressionList` |
| SingleFileJava.SingleFileParser.ParseDecision | SingleFileParser.java:396-410 | the cursor and outcome are `SingleFileGrammar.Decision` |
| SingleFileJava.SingleFileParser.ParseBranches | SingleFileParser.java:406-409 | the cursor and outcome are `SingleFileGrammar.Branches` |
| SingleFileJava.SingleFileParser.ParseComparison | SingleFileParser.java:413-423 | the cursor and outcome are `SingleFileGrammar.Comparison` |
| SingleFileProperties.FactorReadsTree | SingleFileParser.java:319-329 | completeness: a factor reads the whole written form of every factor tree |
| SingleFileProperties.ProductReadsTree | SingleFileParser.java:296-316 | completeness: a term reads the whole written form of every product tree, up to a token that cannot continue it |
| SingleFileProperties.SumReadsTree | SingleFileParser.java:273-293 | completeness: an expression reads the whole written form of every sum tree, up to a token that cannot continue it |
| SingleFileProperties.TermStops | SingleFileParser.java:302-316 | the term loop stops exactly in front of a token other than `*` or `/` |
| SingleFileProperties.ExpressionStops | SingleFileParser.java:279-293 | the expression loop stops exactly in front of a token other than `+` or `-` |
| SingleFileProperties.FactorTreeOf | SingleFileParser.java:319-329 | soundness: the tokens a successful factor reads are the written form of a factor tree |
| SingleFileProperties.ProductTreeOf | SingleFileParser.java:296-316 | soundness: the tokens a successful term reads are the written form of a product tree |
| SingleFileProperties.SumTreeOf | SingleFileParser.java:273-293 | soundness: the tokens a successful expression reads are the written form of a sum tree |
| SingleFileProperties.ExpressionIsWrittenSum | SingleFileParser.java:273-293 | a token run ending at q is read in full by an expression iff it is the written form of a sum tree and no `+ - * /` stands at q |
| SingleFileProperties.IdentifierTailSkipsList | SingleFileParser.java:354-360 | the identifier loop walks over a whole `l1, ..., lk` list: from after `l1` it ends as it would from the end of the list |
| SingleFileProperties.IdentifierListReads | SingleFileParser.java:348-363 | a comma list of identifiers not followed by `,` is read in full |
| SingleFileProperties.TrailingCommaRejected | SingleFileParser.java:357-359 | after a comma list of identifiers, a `,` not followed by an identifier raises the parse exception at the token after the `,` |
| SingleFileProperties.CommandEmptyIff | SingleFileParser.java:228-262 | a command reads nothing iff the current token starts no command (one of the five keywords, or `L :`) |
| SingleFileProperties.AcceptedProgramEndsWithEnd | SingleFileParser.java:198-206 | an accepted program is read to its last token, which is `END` |
| SingleFilePrograms.CommandReads | SingleFileParser.java:228-262 | a well-formed command followed by `;`, END or ELSE is read in full |
| SingleFilePrograms.LabelledReads | SingleFileParser.java:243-249 | the same for a command behind any number of labels |
| SingleFilePrograms.LetReads | SingleFileParser.java:265-270 | the same for `LET x := e` |
| SingleFilePrograms.JumpReads | SingleFileParser.java:333-338 | the same for `GO TO l` |
| SingleFilePrograms.ReadReads | SingleFileParser.java:341-363 | the same for `READ` and an identifier list, possibly empty |
| SingleFilePrograms.PrintReads | SingleFileParser.java:366-393 | the same for `PRINT` and an expression list, possibly empty |
| SingleFilePrograms.IfReads | SingleFileParser.java:396-410 | the same for `IF e1 rel e2 THEN c1 ELSE c2` whose THEN branch takes tokens |
| SingleFilePrograms.BranchesReads | SingleFileParser.java:403-409 | both branches of a well-formed IF are read, and the THEN branch does not start with ELSE |
| SingleFilePrograms.SeqReads | SingleFileParser.java:209-225 | `c1 ; ... ; cn` of well-formed commands is read up to END |
| SingleFilePrograms.ProgramAccepted | SingleFileParser.java:190-206 | the parser accepts every well-formed program followed by END |
| SingleFilePrograms.CmdOf | SingleFileParser.java:228-262 | what `parseComando` accepts is a well-formed command |
| SingleFilePrograms.LabelledOf | SingleFileParser.java:243-249 | the same for a labelled command |
| SingleFilePrograms.LetOf | SingleFileParser.java:265-270 | the same for `LET`: an identifier, `:=` and a well-formed sum |
| SingleFilePrograms.JumpOf | SingleFileParser.java:333-338 | the same for `GO`: `TO` and one identifier |
| SingleFilePrograms.ReadOf | SingleFileParser.java:341-363 | the same for `READ`: an identifier list, possibly empty |
| SingleFilePrograms.PrintOf | SingleFileParser.java:366-393 | the same for `PRINT`: an expression list, possibly empty |
| SingleFilePrograms.IfOf | SingleFileParser.java:396-410 | the same for `IF`: a comparison, THEN, a THEN branch that takes tokens, ELSE and a command |
| SingleFilePrograms.BranchesOf | SingleFileParser.java:406-409 | what follows THEN is accepted only as a well-formed command, ELSE and a well-formed command |
| SingleFilePrograms.SeqOf | SingleFileParser.java:209-225 | what the command sequence accepts is well-formed commands separated by `;`, with no `;` after the last |
| SingleFilePrograms.AcceptedIsProgram | SingleFileParser.java:190-206 | every token list the parser accepts is a well-formed program followed by END |
| SingleFilePrograms.AcceptsExactlyPrograms | SingleFileParser.java:190-206 | the parser accepts a token list if and only if it is a well-formed program followed by END |
| TempRunnerGrammar.Expect | tempCodeRunnerFile.py:88-92 | succeeds iff the current token has the type, moving one token; otherwise the missing-token error at the cursor |
| TempRunnerGrammar.Factor | tempCodeRunnerFile.py:167-176 | the cursor stays within the tokens |
| TempRunnerGrammar.Term | tempCodeRunnerFile.py:161-165 | the cursor stays within the tokens |
| TempRunnerGrammar.TermLoop | tempCodeRunnerFile.py:163-165 | the cursor stays within the tokens |
| TempRunnerGrammar.Expression | tempCodeRunnerFile.py:155-159 | the cursor stays within the tokens |
| TempRunnerGrammar.ExpressionLoop | tempCodeRunnerFile.py:157-159 | the cursor stays within the tokens |
| TempRunnerGrammar.Assignment | tempCodeRunnerFile.py:149-153 | the cursor stays within the tokens; TempRunnerPrograms.LetReads and TempRunnerPrograms.LetOf state both ways that a command on `LET` reads exactly `LET x := e` |
| TempRunnerGrammar.LabelLoop | tempCodeRunnerFile.py:187-188 | the cursor stays within the tokens |
| TempRunnerGrammar.LabelList | tempCodeRunnerFile.py:185-188 | the cursor stays within the tokens; TempRunnerPrograms.ComputedJumpReads and TempRunnerPrograms.JumpOf state both ways that after `OF` it reads exactly a non-empty label list |
| TempRunnerGrammar.Jump | tempCodeRunnerFile.py:178-183 | the cursor stays within the tokens; TempRunnerPrograms.JumpReads, TempRunnerPrograms.ComputedJumpReads and TempRunnerPrograms.JumpOf state both ways that it reads exactly `GO TO l` or `GO TO l OF l1 , ... , lk` |
| TempRunnerGrammar.IdentifierLoop | tempCodeRunnerFile.py:202-204 | the cursor stays within the tokens |
| TempRunnerGrammar.IdentifierList | tempCodeRunnerFile.py:197-204 | the cursor stays within the tokens; TempRunnerPrograms.ReadReads and TempRunnerPrograms.ReadOf state both ways that it reads exactly an identifier list, possibly empty |
| TempRunnerGrammar.Read | tempCodeRunnerFile.py:193-195 | the cursor stays within the tokens; TempRunnerPrograms.ReadReads and TempRunnerPrograms.ReadOf state what it reads, both ways |
| TempRunnerGrammar.ExpressionListLoop | tempCodeRunnerFile.py:216-221 | the cursor stays within the tokens |
| TempRunnerGrammar.ExpressionList | tempCodeRunnerFile.py:210-221 | the cursor stays within the tokens; TablePrograms.ExprsRead and TablePrograms.ExprsOf state both ways that it reads exactly an expression list, possibly empty |
| TempRunnerGrammar.Print | tempCodeRunnerFile.py:206-208 | the cursor stays within the tokens; TempRunnerPrograms.PrintReads and TempRunnerPrograms.PrintOf state what it reads, both ways |
| TempRunnerGrammar.Comparison | tempCodeRunnerFile.py:231-234 | the cursor stays within the tokens; TablePrograms.ComparisonReads and TablePrograms.ComparisonOf state both ways that it reads exactly `e1 rel e2` |
| TempRunnerGrammar.Decision | tempCodeRunnerFile.py:223-229 | the cursor stays within the tokens; TempRunnerPrograms.IfReads and TempRunnerPrograms.IfOf state both ways that it reads exactly an IF, the THEN branch possibly empty |
| TempRunnerGrammar.Branches | tempCodeRunnerFile.py:226-229 | the cursor stays within the tokens; TempRunnerPrograms.BranchesOf and TempRunnerPrograms.BranchesReads state what it reads, both ways |
| TempRunnerGrammar.Wrapped | tempCodeRunnerFile.py:119-125 | the cursor stays within the tokens; TempRunnerPrograms.WrappedReads and TempRunnerPrograms.WrappedOf state both ways that it reads exactly a well-formed command with at most one label |
| TempRunnerGrammar.Command | tempCodeRunnerFile.py:127-147 | the cursor stays within the tokens; TempRunnerPrograms.CommandReads and TempRunnerPrograms.BareOf state both ways that it reads exactly a well-formed command without a label |
| TempRunnerGrammar.SequenceLoop | tempCodeRunnerFile.py:113-117 | the cursor stays within the tokens; TempRunnerPrograms.SeqStepOf states that it goes on after `;` only when END does not follow |
| TempRunnerGrammar.CommandSequence | tempCodeRunnerFile.py:111-117 | the cursor stays within the tokens; TempRunnerPrograms.SeqReads and TempRunnerPrograms.SeqOf state both ways that it reads exactly `c1 ; ... ; cn` |
| TempRunnerGrammar.Program | tempCodeRunnerFile.py:107-109 | the cursor stays within the tokens; TempRunnerPrograms.ProgramAccepted and TempRunnerPrograms.AcceptedIsProgram state what it accepts, both ways |
| TempRunnerGrammar.Analyze | tempCodeRunnerFile.py:100-105 | the cursor stays within the tokens, and an accepted token list is read to its end, which is `END`; TempRunnerPrograms.AcceptsExactlyPrograms states that it accepts exactly the well-formed programs followed by END |
| TempRunnerGrammar.Parse | tempCodeRunnerFile.py:100-105 | a lexical error names an index of the input and its character; a syntax error comes after tokenizing succeeded, at a token index within the list; success means the tokens end with `END` |
| TempRunnerPy.SingleFileAnalyzer.constructor | tempCodeRunnerFile.py:19-40 | the analyser holds the Python rule table, no tokens and position 0 |
| TempRunnerPy.SingleFileAnalyzer.Tokenize | tempCodeRunnerFile.py:42-68 | the result is `TableLexer.Tokenize` with the Python table |
| TempRunnerPy.SingleFileAnalyzer.CurrentToken | tempCodeRunnerFile.py:70-73 | the token at the position, or none past the end |
| TempRunnerPy.SingleFileAnalyzer.Peek | tempCodeRunnerFile.py:75-79 | the token after the current one, or none |
| TempRunnerPy.SingleFileAnalyzer.Match | tempCodeRunnerFile.py:81-86 | true iff the current token has the type; only then the position moves one token |
| TempRunnerPy.SingleFileAnalyzer.Expect | tempCodeRunnerFile.py:88-92 | the position and outcome are `TempRunnerGrammar.Expect` |
| TempRunnerPy.SingleFileAnalyzer.Analyze | tempCodeRunnerFile.py:100-105 | the position and outcome are `TempRunnerGrammar.Analyze` |
| TempRunnerPy.SingleFileAnalyzer.ParseProgram | tempCodeRunnerFile.py:107-109 | the position and outcome are `TempRunnerGrammar.Program` |
| TempRunnerPy.SingleFileAnalyzer.ParseCommandSequence | tempCodeRunnerFile.py:111-117 | the position and outcome are `TempRunnerGrammar.CommandSequence` |
| TempRunnerPy.SingleFileAnalyzer.ParseWrapped | tempCodeRunnerFile.py:119-125 | the position and outcome are `TempRunnerGrammar.Wrapped` |
| TempRunnerPy.SingleFileAnalyzer.ParseCommand | tempCodeRunnerFile.py:127-147 | the position and outcome are `TempRunnerGrammar.Command` |
| TempRunnerPy.SingleFileAnalyzer.ParseAssignment | tempCodeRunnerFile.py:149-153 | the position and outcome are `TempRunnerGrammar.Assignment` |
| TempRunnerPy.SingleFileAnalyzer.ParseExpression | tempCodeRunnerFile.py:155-159 | the position and outcome are `TempRunnerGrammar.Expression` |
| TempRunnerPy.SingleFileAnalyzer.ParseTerm | tempCodeRunnerFile.py:161-165 | the position and outcome are `TempRunnerGrammar.Term` |
| TempRunnerPy.SingleFileAnalyzer.ParseFactor | tempCodeRunnerFile.py:167-176 | the position and outcome are `TempRunnerGrammar.Factor` |
| TempRunnerPy.SingleFileAnalyzer.ParseJump | tempCodeRunnerFile.py:178-183 | the position and outcome are `TempRunnerGrammar.Jump` |
| TempRunnerPy.SingleFileAnalyzer.ParseLabelList | tempCodeRunnerFile.py:185-188 | the position and outcome are `TempRunnerGrammar.LabelList` |
| TempRunnerPy.SingleFileAnalyzer.ParseLabel | tempCodeRunnerFile.py:190-191 | the position and outcome are those of expecting an identifier |
| TempRunnerPy.SingleFileAnalyzer.ParseRead | tempCodeRunnerFile.py:193-195 | the position and outcome are `TempRunnerGrammar.Read` |
| TempRunnerPy.SingleFileAnalyzer.ParseIdentifierList | tempCodeRunnerFile.py:197-204 | the position and outcome are `TempRunnerGrammar.IdentifierList` |
| TempRunnerPy.SingleFileAnalyzer.ParsePrint | tempCodeRunnerFile.py:206-208 | the position and outcome are `TempRunnerGrammar.Print` |
| TempRunnerPy.SingleFileAnalyzer.ParseExpressionList | tempCodeRunnerFile.py:210-221 | the position and outcome are `TempRunnerGrammar.ExpressionList` |
| TempRunnerPy.SingleFileAnalyzer.ParseDecision | tempCodeRunnerFile.py:223-229 | the position and outcome are `TempRunnerGrammar.Decision` |
| TempRunnerPy.SingleFileAnalyzer.ParseBranches | tempCodeRunnerFile.py:226-229 | the position and outcome are `TempRunnerGrammar.Branches` |
| TempRunnerPy.SingleFileAnalyzer.ParseComparison | tempCodeRunnerFile.py:231-234 | the position and outcome are `TempRunnerGrammar.Comparison` |
| TempRunnerPy.SingleFileAnalyzer.ParseComparisonOperator | tempCodeRunnerFile.py:236-241 | succeeds iff the current token is `=`, `>` or `<`, moving one token |
| TempRunnerProperties.CommandOutcomes | tempCodeRunnerFile.py:127-147 | a command reads nothing iff its token is `END`, `ELSE` or `;`; with no token left it raises the unexpected-end error; on a token that starts no command it raises the invalid-command error at the cursor |
| TempRunnerProperties.AtMostOneLabel | tempCodeRunnerFile.py:119-125 | after one label `L:`, a second `M:` is refused as an invalid command at `M` |
| TempRunnerProperties.LabelLoopSkipsList | tempCodeRunnerFile.py:185-188 | the label loop walks over a whole `l1, ..., lk` list: from after `l1` it ends as it would from the end of the list |
| TempRunnerProperties.ComputedJumpReads | tempCodeRunnerFile.py:178-183 | `GO TO L OF l1, ..., lk`, not followed by `,`, is read in full |
| TempRunnerProperties.TermEnds | tempCodeRunnerFile.py:161-165 | a term that reads something ends on an identifier, a number or `)` |
| TempRunnerProperties.ExpressionEnds | tempCodeRunnerFile.py:155-159 | an expression that reads something ends on an identifier, a number or `)` |
| TempRunnerProperties.AssignmentEnds | tempCodeRunnerFile.py:149-153 | an assignment that reads something ends on a token that can close a command: an identifier, a number, `)`, `:`, `READ`, `PRINT` or `ELSE` |
| TempRunnerProperties.JumpEnds | tempCodeRunnerFile.py:178-183 | a jump that reads something ends on a token that can close a command |
| TempRunnerProperties.ReadEnds | tempCodeRunnerFile.py:193-195 | a `READ` that reads something ends on a token that can close a command |
| TempRunnerProperties.PrintEnds | tempCodeRunnerFile.py:206-208 | a `PRINT` that reads something ends on a token that can close a command |
| TempRunnerProperties.CommandEnds | tempCodeRunnerFile.py:127-147 | a command that reads something ends on a token that can close a command |
| TempRunnerProperties.DecisionEnds | tempCodeRunnerFile.py:223-229 | an `IF` that reads something ends on a token that can close a command |
| TempRunnerProperties.WrappedEnds | tempCodeRunnerFile.py:119-125 | a labelled or plain command that reads something ends on a token that can close a command |
| TempRunnerProperties.SequenceLoopEnds | tempCodeRunnerFile.py:113-117 | when the sequence loop reads something and stops in front of `END`, the token before `END` can close a command, so it is not `;` |
| TempRunnerProperties.AcceptedProgramHasNoSemicolonBeforeEnd | tempCodeRunnerFile.py:113-116 | an accepted program's last token is `END`, and the token before it can close a command, so it is not `;` |
| TempRunnerPrograms.WrappedReads | tempCodeRunnerFile.py:119-125 | a well-formed command with at most one label, followed by `;`, END or ELSE, is read in full |
| TempRunnerPrograms.LabelledReads | tempCodeRunnerFile.py:119-125 | the same for a command behind one label |
| TempRunnerPrograms.CommandReads | tempCodeRunnerFile.py:127-147 | the same for a command without a label |
| TempRunnerPrograms.LetReads | tempCodeRunnerFile.py:149-153 | the same for `LET x := e` |
| TempRunnerPrograms.JumpReads | tempCodeRunnerFile.py:178-183 | the same for `GO TO l` |
| TempRunnerPrograms.ComputedJumpReads | tempCodeRunnerFile.py:178-188 | the same for `GO TO l OF l1 , ... , lk` |
| TempRunnerPrograms.ReadReads | tempCodeRunnerFile.py:193-204 | the same for `READ` and an identifier list, possibly empty |
| TempRunnerPrograms.PrintReads | tempCodeRunnerFile.py:206-221 | the same for `PRINT` and an expression list, possibly empty |
| TempRunnerPrograms.IfReads | tempCodeRunnerFile.py:223-229 | the same for `IF e1 rel e2 THEN c1 ELSE c2`, c1 possibly empty |
| TempRunnerPrograms.BranchesReads | tempCodeRunnerFile.py:223-229 | both branches of a well-formed IF are read |
| TempRunnerPrograms.SeqReads | tempCodeRunnerFile.py:111-117 | `c1 ; ... ; cn` of well-formed commands, the last of two or more not empty, is read up to END |
| TempRunnerPrograms.ProgramAccepted | tempCodeRunnerFile.py:100-109 | `analisar` accepts every well-formed program followed by END |
| TempRunnerPrograms.WrappedOf | tempCodeRunnerFile.py:119-125 | what the label wrapper accepts is a well-formed command with at most one label |
| TempRunnerPrograms.BareOf | tempCodeRunnerFile.py:127-147 | what `_analisar_comando` accepts is a well-formed command without a label |
| TempRunnerPrograms.LetOf | tempCodeRunnerFile.py:149-153 | the same for `LET`: an identifier, `:=` and a well-formed sum |
| TempRunnerPrograms.JumpOf | tempCodeRunnerFile.py:178-188 | the same for `GO`: `TO`, a label, and after `OF` a non-empty label list |
| TempRunnerPrograms.ReadOf | tempCodeRunnerFile.py:193-204 | the same for `READ`: an identifier list, possibly empty |
| TempRunnerPrograms.PrintOf | tempCodeRunnerFile.py:206-221 | the same for `PRINT`: an expression list, possibly empty |
| TempRunnerPrograms.IfOf | tempCodeRunnerFile.py:223-229 | the same for `IF`: a comparison, THEN, a command, ELSE and a command |
| TempRunnerPrograms.BranchesOf | tempCodeRunnerFile.py:223-229 | what follows THEN is accepted only as a well-formed command, ELSE and a well-formed command |
| TempRunnerPrograms.SeqStepOf | tempCodeRunnerFile.py:113-117 | the sequence goes on after `;` only when END does not follow, and then as a sequence of its own |
| TempRunnerPrograms.SeqOf | tempCodeRunnerFile.py:111-117 | what the command sequence accepts is well-formed commands separated by `;`, with no `;` after the last, and the last of two or more not empty when END follows |
| TempRunnerPrograms.AcceptedIsProgram | tempCodeRunnerFile.py:100-109 | every token list `analisar` accepts is a well-formed program followed by END |
| TempRunnerPrograms.AcceptsExactlyPrograms | tempCodeRunnerFile.py:100-109 | `analisar` accepts a token list if and only if it is a well-formed program followed by END |
| TableVersions.FactorsAgree | SingleFileParser.java:319-329 | `Corresponds`: the two table-driven parsers' factors both succeed at the same position or both raise an error |
| TableVersions.TermTailsAgree | SingleFileParser.java:302-316 | the term loops correspond |
| TableVersions.TermsAgree | SingleFileParser.java:296-299 | the terms correspond |
| TableVersions.ExpressionTailsAgree | SingleFileParser.java:279-293 | the expression loops correspond |
| TableVersions.ExpressionsAgree | SingleFileParser.java:273-276 | the expressions correspond |
| TableVersions.TempExpressionIsWrittenSum | tempCodeRunnerFile.py:155-159 | a token run ending at q is read in full by tempCodeRunnerFile.py's expression iff it is the written form of a sum tree and no `+ - * /` stands at q |
| TableVersions.AssignmentsAgree | SingleFileParser.java:265-270 | the assignments correspond |
| TableVersions.ComparisonsAgree | SingleFileParser.java:413-423 | the comparisons correspond |
| TableVersions.IdentifierLoopsAgree | SingleFileParser.java:354-360 | the identifier loops correspond |
| TableVersions.ReadsAgree | SingleFileParser.java:341-344 | `READ` corresponds |
| TableVersions.ExpressionListLoopsAgree | SingleFileParser.java:382-391 | the expression-list loops correspond |
| TableVersions.PrintsAgree | SingleFileParser.java:366-369 | `PRINT` corresponds |
| TableVersions.JumpsAgree | SingleFileParser.java:333-338 | `GO TO` corresponds when no `OF` keyword stands after the label |
| TableVersions.JavaTokensJumpsAgree | SingleFileParser.java:69-71 | on tokens from the Java table, which never holds `OF`, the jumps correspond |
| TableVersions.AtomIsExpression | SingleFileParser.java:319-329 | a lone identifier or number not followed by an operator is a whole expression for both parsers |
| TableVersions.SemicolonBeforeEndParts | tempCodeRunnerFile.py:114-115 | `; END` is accepted by SingleFileParser.java and refused by tempCodeRunnerFile.py at the `END` |
| TableVersions.EmptyThenBranchRefusedByJava | SingleFileParser.java:403-405 | `IF A = B THEN ELSE END` raises the missing-THEN-command exception in SingleFileParser.java |
| TableVersions.EmptyThenBranchAcceptedByPython | tempCodeRunnerFile.py:223-229 | the same `IF A = B THEN ELSE END` is accepted by tempCodeRunnerFile.py, which reads `ELSE` as an empty command |
| TableVersions.TwoLabelsParts | SingleFileParser.java:243-249 | `L: M: END` is accepted by SingleFileParser.java and refused by tempCodeRunnerFile.py as an invalid command at `M` |
| TableVersions.JumpOfJavaRefused | SingleFileParser.java:333-338 | `GO TO L OF A END` as the Java table writes it (`OF` an identifier) is refused: `END` is expected at `OF` |
| TableVersions.JumpOfPythonAccepted | tempCodeRunnerFile.py:178-183 | the same line as the Python table writes it (`OF` a keyword) is accepted by tempCodeRunnerFile.py |
| TableVersions.GreaterOrEqualRefusedByJava | SingleFileParser.java:413-423 | `IF A >= ...`, lexed as `>` then `=`, is refused by SingleFileParser.java at the `=` |
| TableVersions.GreaterOrEqualRefusedByPython | tempCodeRunnerFile.py:236-241 | the same is refused by tempCodeRunnerFile.py at the `=` |

## Left out

- Console output is modelled as message values, not their Portuguese text; script.py's and script.java's echo of the input (`Analisando: ...`) is the first message of each call. Main.java's log keeps only its diagnostics: its echo (Main.java:431) and its summary lines are not in the log. After a lexical error Main.java prints a second line, that syntax analysis is aborted (Main.java:434); the model keeps it as the rejected verdict, not as a second log entry. The `main` methods and demo drivers, `toString`/`__repr__` and the exception classes' text are not modelled.
- Characters outside ASCII are not modelled: `Character.isLetterOrDigit`, `str.isalnum` and `\s` differ on them between the languages.
- Chars.ToUpper, HandLexer.WordClassification, HandLexer.KeywordsIgnoreCase, CrossVersion.MainAcceptedInputIsScriptAccepted and ScriptJava.StartAgreesWithScriptPy, as far as the Java lexers go: Main.java:121 and script.java:51 upper-case a word with the no-argument `toUpperCase()`, which uses the default locale of the Java virtual machine. The model assumes a default locale whose upper-casing of ASCII is the plain one, that is, not Turkish or Azeri. Under `tr` or `az`, `i` upper-cases to U+0130, so a word with a lower-case `i` that spells a reserved word (`if`, `print`) is an identifier in Main.java and script.java, while script.py's locale-independent `str.upper()` still makes it a keyword. On `if: PRINT 1; END`, for example, Main.java then accepts and script.py rejects.
- MainJava.LexerParser.ReadToken: the same default-locale assumption as Chars.ToUpper; under `tr` or `az` it emits an identifier for `if` or `print` where `HandLexer.Scan` emits a keyword.
- MainJava.LexerParser.Tokenize: equals `HandLexer.Lex` only under the same default-locale assumption as Chars.ToUpper.
- MainJava.LexerParser.Parse: its verdict is `MainGrammar.ParseInput(input)` only under the same default-locale assumption as Chars.ToUpper; under `tr` or `az` it differs on inputs such as `if: PRINT 1; END`.
- ScriptJava.BasicParser.ReadSymbol: the same default-locale assumption as Chars.ToUpper; under `tr` or `az` the token read for `if` or `print` is an identifier.
- ScriptJava.BasicParser.Tokenize: equals `HandLexer.Lex` only under the same default-locale assumption as Chars.ToUpper.
- ScriptJava.BasicParser.Parse: stores `Start`'s tokens only under the same default-locale assumption as Chars.ToUpper.
- The regular-expression engines are replaced by the anchored-match predicates each table entry denotes.
- script.java's `command`, `commandSequence` and the rest of `parse` are not modelled: the source does not compile at line 166, so nothing after the command dispatch has a meaning to model.
- ScriptJava.BasicParser.Parse: states only the checks before the command sequence, for the reason above.
- MainJava.LexerParser.Tokenize: the partial token list left behind after a lexical error is not stated, since `parse` never reads it.
- MainJava.LexerParser.constructor: the token list starts as `null` in the source and as the empty sequence here; every method reads it only after `parse` sets it.
- SingleFileJava.SingleFileParser.constructor: the same difference; the `tokens` field is `null` until `parse` sets it (SingleFileParser.java:75).
- MainPrograms.AcceptsExactlyPrograms, SingleFilePrograms.AcceptsExactlyPrograms, TempRunnerPrograms.AcceptsExactlyPrograms and the other acceptance lemmas assume unbounded recursion depth. Each nesting level of parentheses or of IF costs the recursive-descent parsers several call frames. On deeply nested input the programs stop where the model accepts: Java throws StackOverflowError, which Main.java does not catch and the `catch (Exception e)` at SingleFileParser.java:444 does not catch either; CPython raises RecursionError at its default limit of 1000 frames, which tempCodeRunnerFile.py:255-256 reports as an unexpected error and script.py does not catch.
- TempRunnerPy.SingleFileAnalyzer.Expect: the message suffix passed to `_esperar_token` is not kept in the error value.
- SingleFileGrammar.Factor and the other grammar functions of the two table-driven parsers: their own contracts state only how the cursor moves. What they accept is stated by the lemmas in TablePrograms, SingleFilePrograms, TempRunnerPrograms, SingleFileProperties, TempRunnerProperties and TableVersions.
- ScriptPyGrammar.LetRule, ScriptPyGrammar.LabelLoop, ScriptPyGrammar.GoRule, ScriptPyGrammar.ComputedGoRule, ScriptPyGrammar.ReadLoop, ScriptPyGrammar.ReadRule, ScriptPyGrammar.PrintLoop, ScriptPyGrammar.PrintRule, ScriptPyGrammar.IfRule, ScriptPyGrammar.ThenElse, ScriptPyGrammar.Command and ScriptPyGrammar.CommandSeq: what they accept is stated only through Main.java's grammar. CrossVersion shows that they read whatever Main.java's rules read, and every well-formed program. There is no parse-tree grammar of script.py's own, so there is no converse: script.py accepts more than Main.java, e.g. `L: END` and `END`, `TO`, `OF`, `THEN` or `ELSE` as an empty command.
- CrossVersion.ScriptCommandReads: needs `;`, END or ELSE after the command, as MainPrograms.CommandReads does; script.py also stops cleanly before other tokens and leaves the complaint to its caller.
- ScriptPy.ScriptModule.Conclude splits the verdict lines off `parse`; together with ScriptPy.ScriptModule.Parse it does what `parse` does.
- SingleFileJava.SingleFileParser.ParseBranches and TempRunnerPy.SingleFileAnalyzer.ParseBranches split the branch part off `parseDecisao` and `_analisar_decisao`; each pair of methods together does what the one source method does.
- ScriptPyGrammar.PyInt: assumes `int()` without the `int_max_str_digits` limit of CPython 3.11 and later. There a numeral of more than 4300 digits (leading zeros included) raises `ValueError`, and script.py prints the invalid-numeric-value line instead of the range verdict.
- ScriptPyProperties.ComputedJumpChecksRange: holds for every numeral only under the unbounded `int()` that PyInt models; above the CPython digit limit script.py reports an invalid numeric value instead.
- ScriptPyProperties.RangeCheckOfNumeral: the same assumption as PyInt.
- CrossVersion.MainAcceptedTokensAreScriptAccepted: the same assumption as PyInt; a zero-padded numeral of more than 4300 digits that Java's `parseInt` accepts would make script.py refuse under that limit.
