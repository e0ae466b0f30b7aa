/**
 * What tempCodeRunnerFile.py accepts, proved about the functions of
 * TempRunnerGrammar: which commands are empty, that a command carries at
 * most one label, how GO TO ... OF lists are read, and that an accepted
 * program never has `;` right before its END.
 */
module TempRunnerProperties {
  import opened TableLexer
  import opened TableSyntax
  import T = TempRunnerGrammar

  predicate IsCommandKeyword(k: Kind) {
    k == T.LetKw || k == T.GoKw || k == T.ReadKw || k == T.PrintKw || k == T.IfKw
  }

  // ----- Commands -----

  /** _analisar_comando: END, ELSE and `;` are the empty command; no token
      left is an error; any other token that starts no command is refused. */
  lemma CommandOutcomes(toks: seq<Token>, p: nat)
    requires p <= |toks|
    ensures T.Command(toks, p) == Ok(p) <==>
      p < |toks| && (toks[p].kind == T.EndKw || toks[p].kind == T.ElseKw || toks[p].kind == Semi)
    ensures p == |toks| ==> T.Command(toks, p) == Thrown(T.UnexpectedEndOfProgram, p)
    ensures p < |toks| && !IsCommandKeyword(toks[p].kind)
      && toks[p].kind != T.EndKw && toks[p].kind != T.ElseKw && toks[p].kind != Semi
      ==> T.Command(toks, p) == Thrown(T.InvalidCommand(toks[p].text), p)
  {
    if p < |toks| {
      var k := toks[p].kind;
      if k == T.LetKw {
        assert T.Command(toks, p) == T.Assignment(toks, p);
      } else if k == T.GoKw {
        assert T.Command(toks, p) == T.Jump(toks, p);
      } else if k == T.ReadKw {
        assert T.Command(toks, p) == T.Read(toks, p);
      } else if k == T.PrintKw {
        assert T.Command(toks, p) == T.Print(toks, p);
      } else if k == T.IfKw {
        assert T.Command(toks, p) == T.Decision(toks, p);
      }
    }
  }

  /** _analisar_invólucro_comando takes one label; a second one is a command it refuses. */
  lemma AtMostOneLabel(toks: seq<Token>, p: nat)
    requires p <= |toks| && T.LabelAt(toks, p) && T.LabelAt(toks, p + 2)
    ensures T.Wrapped(toks, p) == Thrown(T.InvalidCommand(toks[p + 2].text), p + 2)
  {
  }

  // ----- GO TO ... OF -----

  lemma {:induction false} LabelLoopSkipsList(ids: seq<Token>, toks: seq<Token>, p: nat)
    requires |ids| >= 1 && AllIdentifiers(ids) && Reads(toks, p, CommaList(ids))
    ensures T.LabelLoop(toks, p + 1) == T.LabelLoop(toks, p + |CommaList(ids)|)
    decreases |ids|
  {
    if |ids| > 1 {
      var rest := CommaList(ids[1..]);
      ReadsSplit(toks, p, [ids[0], Token(Comma, ",")], rest);
      assert toks[p + 1] == Token(Comma, ",");
      assert toks[p + 2] == rest[0] == ids[1];
      LabelLoopSkipsList(ids[1..], toks, p + 2);
    }
  }

  /** GO TO L OF L1, ..., Ln: the label list after OF is read whole. */
  lemma ComputedJumpReads(ids: seq<Token>, toks: seq<Token>, p: nat)
    requires p + 4 <= |toks| && At(toks, p, T.GoKw) && At(toks, p + 1, T.ToKw)
    requires At(toks, p + 2, Identifier) && At(toks, p + 3, T.OfKw)
    requires |ids| >= 1 && AllIdentifiers(ids) && Reads(toks, p + 4, CommaList(ids))
    requires !At(toks, p + 4 + |CommaList(ids)|, Comma)
    ensures T.Jump(toks, p) == Ok(p + 4 + |CommaList(ids)|)
  {
    assert toks[p + 4] == CommaList(ids)[0] == ids[0];
    LabelLoopSkipsList(ids, toks, p + 4);
  }

  // ----- The last token a command consumes -----

  /** Expressions end on an identifier, a number or `)`. */
  predicate EndsOnOperand(toks: seq<Token>, p: nat, r: T.Result) {
    r.Ok? && p < r.pos <= |toks| ==>
      toks[r.pos - 1].kind == Identifier || toks[r.pos - 1].kind == Number || toks[r.pos - 1].kind == RParen
  }

  /** The tokens a command that consumes something can end on. */
  predicate ClosesCommand(k: Kind) {
    k == Identifier || k == Number || k == RParen || k == T.ReadKw || k == T.PrintKw || k == T.ElseKw || k == Colon
  }

  predicate EndsCleanly(toks: seq<Token>, p: nat, r: T.Result) {
    r.Ok? && p < r.pos <= |toks| ==> ClosesCommand(toks[r.pos - 1].kind)
  }

  lemma {:induction false} TermLoopEnds(toks: seq<Token>, p: nat)
    requires p <= |toks|
    ensures EndsOnOperand(toks, p, T.TermLoop(toks, p))
    decreases |toks| - p
  {
    if At(toks, p, Star) || At(toks, p, Slash) {
      var a := T.Factor(toks, p + 1);
      if a.Ok? {
        TermLoopEnds(toks, a.pos);
      }
    }
  }

  lemma TermEnds(toks: seq<Token>, p: nat)
    requires p <= |toks|
    ensures EndsOnOperand(toks, p, T.Term(toks, p))
  {
    var a := T.Factor(toks, p);
    if a.Ok? {
      TermLoopEnds(toks, a.pos);
    }
  }

  lemma {:induction false} ExpressionLoopEnds(toks: seq<Token>, p: nat)
    requires p <= |toks|
    ensures EndsOnOperand(toks, p, T.ExpressionLoop(toks, p))
    decreases |toks| - p
  {
    if At(toks, p, Plus) || At(toks, p, Minus) {
      TermEnds(toks, p + 1);
      var a := T.Term(toks, p + 1);
      if a.Ok? {
        ExpressionLoopEnds(toks, a.pos);
      }
    }
  }

  lemma ExpressionEnds(toks: seq<Token>, p: nat)
    requires p <= |toks|
    ensures EndsOnOperand(toks, p, T.Expression(toks, p))
  {
    TermEnds(toks, p);
    var a := T.Term(toks, p);
    if a.Ok? {
      ExpressionLoopEnds(toks, a.pos);
    }
  }

  lemma {:induction false} LabelLoopEnds(toks: seq<Token>, p: nat)
    requires p <= |toks|
    ensures var r := T.LabelLoop(toks, p); r.Ok? && p < r.pos ==> toks[r.pos - 1].kind == Identifier
    decreases |toks| - p
  {
    if At(toks, p, Comma) && At(toks, p + 1, Identifier) {
      LabelLoopEnds(toks, p + 2);
    }
  }

  lemma {:induction false} IdentifierLoopEnds(toks: seq<Token>, p: nat)
    requires p <= |toks|
    ensures var r := T.IdentifierLoop(toks, p); r.Ok? && p < r.pos ==> toks[r.pos - 1].kind == Identifier
    decreases |toks| - p
  {
    if At(toks, p, Comma) && At(toks, p + 1, Identifier) {
      IdentifierLoopEnds(toks, p + 2);
    }
  }

  lemma {:induction false} ExpressionListLoopEnds(toks: seq<Token>, p: nat)
    requires p <= |toks|
    ensures EndsOnOperand(toks, p, T.ExpressionListLoop(toks, p))
    decreases |toks| - p
  {
    if At(toks, p, Comma) && T.ExprStart(toks, p + 1) {
      ExpressionEnds(toks, p + 1);
      var a := T.Expression(toks, p + 1);
      if a.Ok? {
        ExpressionListLoopEnds(toks, a.pos);
      }
    }
  }

  lemma AssignmentEnds(toks: seq<Token>, p: nat)
    requires p <= |toks|
    ensures EndsCleanly(toks, p, T.Assignment(toks, p))
  {
    if At(toks, p, T.LetKw) && At(toks, p + 1, Identifier) && At(toks, p + 2, Assign) {
      ExpressionEnds(toks, p + 3);
    }
  }

  lemma JumpEnds(toks: seq<Token>, p: nat)
    requires p <= |toks|
    ensures EndsCleanly(toks, p, T.Jump(toks, p))
  {
    if At(toks, p, T.GoKw) && At(toks, p + 1, T.ToKw) && At(toks, p + 2, Identifier) && At(toks, p + 3, T.OfKw) && At(toks, p + 4, Identifier) {
      LabelLoopEnds(toks, p + 5);
    }
  }

  lemma ReadEnds(toks: seq<Token>, p: nat)
    requires p <= |toks|
    ensures EndsCleanly(toks, p, T.Read(toks, p))
  {
    if At(toks, p, T.ReadKw) && At(toks, p + 1, Identifier) {
      IdentifierLoopEnds(toks, p + 2);
    }
  }

  lemma PrintEnds(toks: seq<Token>, p: nat)
    requires p <= |toks|
    ensures EndsCleanly(toks, p, T.Print(toks, p))
  {
    if At(toks, p, T.PrintKw) && T.ExprStart(toks, p + 1) {
      ExpressionEnds(toks, p + 1);
      var a := T.Expression(toks, p + 1);
      if a.Ok? {
        ExpressionListLoopEnds(toks, a.pos);
      }
    }
  }

  lemma {:induction false} CommandEnds(toks: seq<Token>, p: nat)
    requires p <= |toks|
    ensures EndsCleanly(toks, p, T.Command(toks, p))
    decreases |toks| - p, 9
  {
    if p < |toks| {
      var k := toks[p].kind;
      if k == T.LetKw {
        AssignmentEnds(toks, p);
      } else if k == T.GoKw {
        JumpEnds(toks, p);
      } else if k == T.ReadKw {
        ReadEnds(toks, p);
      } else if k == T.PrintKw {
        PrintEnds(toks, p);
      } else if k == T.IfKw {
        DecisionEnds(toks, p);
      }
    }
  }

  lemma {:induction false} DecisionEnds(toks: seq<Token>, p: nat)
    requires p <= |toks|
    ensures EndsCleanly(toks, p, T.Decision(toks, p))
    decreases |toks| - p, 8
  {
    if At(toks, p, T.IfKw) {
      var c := T.Comparison(toks, p + 1);
      if c.Ok? && At(toks, c.pos, T.ThenKw) {
        BranchesEnds(toks, c.pos + 1);
      }
    }
  }

  lemma {:induction false} BranchesEnds(toks: seq<Token>, p: nat)
    requires p <= |toks|
    ensures EndsCleanly(toks, p, T.Branches(toks, p))
    decreases |toks| - p, 11
  {
    var t := T.Wrapped(toks, p);
    if t.Ok? && At(toks, t.pos, T.ElseKw) {
      WrappedEnds(toks, t.pos + 1);
    }
  }

  /** A labelled or bare command that consumes something ends on an
      identifier, a number, `)`, READ, PRINT, ELSE or the label's `:`. */
  lemma {:induction false} WrappedEnds(toks: seq<Token>, p: nat)
    requires p <= |toks|
    ensures EndsCleanly(toks, p, T.Wrapped(toks, p))
    decreases |toks| - p, 10
  {
    if T.LabelAt(toks, p) {
      CommandEnds(toks, p + 2);
    } else {
      CommandEnds(toks, p);
    }
  }

  lemma {:induction false} SequenceLoopEnds(toks: seq<Token>, p: nat)
    requires p <= |toks|
    ensures var r := T.SequenceLoop(toks, p);
      r.Ok? && p < r.pos && At(toks, r.pos, T.EndKw) ==> ClosesCommand(toks[r.pos - 1].kind)
    decreases |toks| - p
  {
    if At(toks, p, Semi) && !At(toks, p + 1, T.EndKw) {
      WrappedEnds(toks, p + 1);
      var b := T.Wrapped(toks, p + 1);
      if b.Ok? {
        SequenceLoopEnds(toks, b.pos);
      }
    }
  }

  /** An accepted program ends with END, and the token before it closes a
      command: in particular it is never `;`. */
  lemma AcceptedProgramHasNoSemicolonBeforeEnd(toks: seq<Token>)
    requires T.Analyze(toks).Ok?
    ensures |toks| >= 1 && toks[|toks| - 1].kind == T.EndKw
    ensures |toks| >= 2 ==> ClosesCommand(toks[|toks| - 2].kind) && toks[|toks| - 2].kind != Semi
  {
    var b := T.Wrapped(toks, 0);
    WrappedEnds(toks, 0);
    if b.Ok? {
      SequenceLoopEnds(toks, b.pos);
    }
  }
}
