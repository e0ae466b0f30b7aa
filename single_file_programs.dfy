/**
 * Which programs SingleFileParser.java accepts. A command is well formed
 * here when its label and names are identifiers, its sums are well formed,
 * its IF compares with `=`, `>` or `<` and has a THEN branch that takes
 * tokens, and it is not a computed GO TO, which this parser does not know.
 * The parser accepts a token list exactly when it is such a program
 * followed by END (AcceptsExactlyPrograms).
 */
module SingleFilePrograms {
  import opened TableLexer
  import opened TableSyntax
  import S = SingleFileGrammar
  import opened TablePrograms

  predicate CmdOk(c: Cmd)
    decreases c
  {
    match c
    case Empty => true
    case Labelled(l, b) => l.kind == Identifier && CmdOk(b)
    case Let(x, e) => x.kind == Identifier && SumOk(e)
    case Jump(l) => l.kind == Identifier
    case ComputedJump(_, _) => false
    case Read(ns) => AllIdentifiers(ns)
    case Print(es) => SumsOk(es)
    case If(a, rel, b, c1, c2) => SumOk(a) && IsRel(rel) && SumOk(b) && c1 != Empty && CmdOk(c1) && CmdOk(c2)
  }

  predicate CmdsOk(cmds: seq<Cmd>)
    decreases cmds
  {
    cmds == [] || (CmdOk(cmds[0]) && CmdsOk(cmds[1..]))
  }

  /** One command or more, each well formed; any of them may be empty. */
  predicate ProgramOk(prog: Program) {
    |prog.cmds| >= 1 && CmdsOk(prog.cmds)
  }

  /** A well-formed command stands at p and ends at q, where `;`, END or ELSE follows. */
  predicate Placed(toks: seq<Token>, p: nat, c: Cmd, q: nat) {
    CmdOk(c) && CmdAt(toks, p, c) && q == p + Width(c) && Follow(toks, q)
  }

  /** Well-formed commands stand at p, separated by `;`, and END at e. */
  predicate SeqPlaced(toks: seq<Token>, p: nat, cmds: seq<Cmd>, e: nat) {
    CmdsOk(cmds) && SeqAt(toks, p, cmds) && e == p + SeqWidth(cmds) && At(toks, e, S.EndKw)
  }

  /** A well-formed command stands at p and ends at q. */
  predicate Parsed(toks: seq<Token>, p: nat, c: Cmd, q: nat) {
    CmdOk(c) && CmdAt(toks, p, c) && q == p + Width(c)
  }

  /** Well-formed commands stand at p, separated by `;`, and end at e, where no `;` follows. */
  predicate SeqParsed(toks: seq<Token>, p: nat, cmds: seq<Cmd>, e: nat) {
    CmdsOk(cmds) && SeqAt(toks, p, cmds) && e == p + SeqWidth(cmds) && !At(toks, e, Semi)
  }

  // ---------------------------------------------------------------------
  // Every well-formed program is accepted
  // ---------------------------------------------------------------------

  /** The parser accepts every well-formed program followed by END. */
  lemma {:induction false} ProgramAccepted(toks: seq<Token>, prog: Program)
    requires ProgramOk(prog) && Written(toks, prog)
    ensures S.Program(toks) == Ok(|toks|)
  {
    assert SeqPlaced(toks, 0, prog.cmds, |toks| - 1);
    SeqReads(toks, 0, prog.cmds, |toks| - 1);
  }

  /** The command sequence reads well-formed commands up to END. */
  lemma {:induction false} SeqReads(toks: seq<Token>, p: nat, cmds: seq<Cmd>, e: nat)
    requires SeqPlaced(toks, p, cmds, e)
    ensures S.CommandSequence(toks, p) == Ok(e)
    decreases cmds, 1
  {
    if |cmds| == 1 {
      LastReads(toks, p, cmds, e);
      SeqEndStep(toks, p, e);
    } else {
      MoreReads(toks, p, cmds, e);
    }
  }

  /** A sequence of two or more commands: the first, `;`, and the rest. */
  lemma {:induction false} MoreReads(toks: seq<Token>, p: nat, cmds: seq<Cmd>, e: nat)
    requires |cmds| >= 2 && SeqPlaced(toks, p, cmds, e)
    ensures S.CommandSequence(toks, p) == Ok(e)
    decreases cmds, 0
  {
    HeadReads(toks, p, cmds, e);
    SeqReads(toks, p + Width(cmds[0]) + 1, cmds[1..], e);
    SeqStep(toks, p, p + Width(cmds[0]), e);
  }

  /** The command rule reads a command and stops in front of `;`. */
  predicate HeadRead(toks: seq<Token>, p: nat, q: nat) {
    p <= q < |toks| && S.Command(toks, p) == Ok(q) && At(toks, q, Semi)
  }

  /** The command rule reads a command and stops in front of something else than `;`. */
  predicate LastRead(toks: seq<Token>, p: nat, e: nat) {
    p <= e <= |toks| && S.Command(toks, p) == Ok(e) && !At(toks, e, Semi)
  }

  /** The only command of a sequence is read up to END. */
  lemma {:induction false} LastReads(toks: seq<Token>, p: nat, cmds: seq<Cmd>, e: nat)
    requires |cmds| == 1 && SeqPlaced(toks, p, cmds, e)
    ensures LastRead(toks, p, e)
  {
    assert Placed(toks, p, cmds[0], e) && At(toks, e, S.EndKw);
    CommandReads(toks, p, cmds[0], e);
  }

  /** The first command of a longer sequence is read up to `;`. */
  lemma {:induction false} HeadReads(toks: seq<Token>, p: nat, cmds: seq<Cmd>, e: nat)
    requires |cmds| >= 2 && SeqPlaced(toks, p, cmds, e)
    ensures HeadRead(toks, p, p + Width(cmds[0])) && SeqPlaced(toks, p + Width(cmds[0]) + 1, cmds[1..], e)
  {
    assert Placed(toks, p, cmds[0], p + Width(cmds[0])) && At(toks, p + Width(cmds[0]), Semi)
      && SeqPlaced(toks, p + Width(cmds[0]) + 1, cmds[1..], e) by {
      SeqParts(toks, p, cmds);
    }
    CommandReads(toks, p, cmds[0], p + Width(cmds[0]));
  }

  /** parseSequenciaDeComandos, from its first command and the sequence after `;`. */
  lemma {:induction false} SeqStep(toks: seq<Token>, p: nat, q: nat, e: nat)
    requires HeadRead(toks, p, q) && S.CommandSequence(toks, q + 1) == Ok(e)
    ensures S.CommandSequence(toks, p) == Ok(e)
  {
    assert S.SequenceTail(toks, q) == Ok(e);
  }

  /** parseSequenciaDeComandos, from its only command. */
  lemma {:induction false} SeqEndStep(toks: seq<Token>, p: nat, e: nat)
    requires LastRead(toks, p, e)
    ensures S.CommandSequence(toks, p) == Ok(e)
  {
    assert S.SequenceTail(toks, e) == Ok(e);
  }

  /** The command rule reads a well-formed command up to what follows it. */
  lemma {:induction false} CommandReads(toks: seq<Token>, p: nat, c: Cmd, q: nat)
    requires Placed(toks, p, c, q)
    ensures S.Command(toks, p) == Ok(q)
    decreases c, 4
  {
    match c
    case Empty => FollowIsEmpty(toks, p);
    case Labelled(_, _) => LabelledReads(toks, p, c, q);
    case Let(_, _) => LetReads(toks, p, c, q);
    case Jump(_) => JumpReads(toks, p, c, q);
    case Read(_) => ReadReads(toks, p, c, q);
    case Print(_) => PrintReads(toks, p, c, q);
    case If(_, _, _, _, _) => IfReads(toks, p, c, q);
  }

  lemma {:induction false} LabelledReads(toks: seq<Token>, p: nat, c: Cmd, q: nat)
    requires c.Labelled? && Placed(toks, p, c, q)
    ensures S.Command(toks, p) == Ok(q)
    decreases c, 1
  {
    LabelPlaced(toks, p, c, q);
    CommandReads(toks, p + 2, c.body, q);
    LabelStep(toks, p);
  }

  /** The body of a labelled command stands after `label :`. */
  lemma {:induction false} LabelPlaced(toks: seq<Token>, p: nat, c: Cmd, q: nat)
    requires c.Labelled? && Placed(toks, p, c, q)
    ensures Placed(toks, p + 2, c.body, q) && At(toks, p, Identifier) && At(toks, p + 1, Colon)
  {
  }

  /** parseComando passes over a label to the command after it. */
  lemma {:induction false} LabelStep(toks: seq<Token>, p: nat)
    requires At(toks, p, Identifier) && At(toks, p + 1, Colon)
    ensures S.Command(toks, p) == S.Command(toks, p + 2)
  {
  }

  lemma {:induction false} LetReads(toks: seq<Token>, p: nat, c: Cmd, q: nat)
    requires c.Let? && Placed(toks, p, c, q)
    ensures S.Command(toks, p) == Ok(q)
  {
    FollowStops(toks, q);
    SumReads(toks, p + 3, c.value);
  }

  lemma {:induction false} JumpReads(toks: seq<Token>, p: nat, c: Cmd, q: nat)
    requires c.Jump? && Placed(toks, p, c, q)
    ensures S.Command(toks, p) == Ok(q)
  {
  }

  lemma {:induction false} ReadReads(toks: seq<Token>, p: nat, c: Cmd, q: nat)
    requires c.Read? && Placed(toks, p, c, q)
    ensures S.Command(toks, p) == Ok(q)
  {
    var ns := c.names;
    FollowStops(toks, q);
    if ns != [] {
      assert AllIdentifiers(ns[1..]) by {
        forall i | 0 <= i < |ns[1..]| ensures ns[1..][i].kind == Identifier {
          assert ns[1..][i] == ns[i + 1];
        }
      }
      MoreNamesRead(toks, p + 2, ns[1..]);
    }
  }

  lemma {:induction false} PrintReads(toks: seq<Token>, p: nat, c: Cmd, q: nat)
    requires c.Print? && Placed(toks, p, c, q)
    ensures S.Command(toks, p) == Ok(q)
  {
    ExprsRead(toks, p + 1, c.values, q);
  }

  /** On `;`, END or ELSE the command rule reads nothing. */
  lemma {:induction false} FollowIsEmpty(toks: seq<Token>, p: nat)
    requires Follow(toks, p)
    ensures S.Command(toks, p) == Ok(p)
  {
    assert toks[p].kind.Keyword? ==> toks[p].kind.word[0] == 'E';
  }

  lemma {:induction false} IfReads(toks: seq<Token>, p: nat, c: Cmd, q: nat)
    requires c.If? && Placed(toks, p, c, q)
    ensures S.Command(toks, p) == Ok(q)
    decreases c, 3
  {
    IfFacts(toks, p, c, q);
    IfStep(toks, p, ThenPos(p, c), ElsePos(p, c), q);
  }

  /** What parseDecisao reads, part by part: IF, the comparison up to THEN, the THEN branch up to ELSE, and the ELSE branch. */
  predicate IfRead(toks: seq<Token>, p: nat, p4: nat, e: nat, q: nat) {
    At(toks, p, S.IfKw) && p < p4 && p4 + 1 < e < |toks|
    && S.Comparison(toks, p + 1) == Ok(p4) && At(toks, p4, S.ThenKw) && BranchesRead(toks, p4 + 1, e, q)
  }

  /** What the rest of parseDecisao reads: a command that does not start with ELSE, ELSE, and a command. */
  predicate BranchesRead(toks: seq<Token>, t: nat, e: nat, q: nat) {
    t < e < |toks| && !At(toks, t, S.ElseKw)
    && S.Command(toks, t) == Ok(e) && At(toks, e, S.ElseKw) && S.Command(toks, e + 1) == Ok(q)
  }

  /** What the parser reads of a well-formed IF, part by part. */
  lemma {:induction false} IfFacts(toks: seq<Token>, p: nat, c: Cmd, q: nat)
    requires c.If? && Placed(toks, p, c, q)
    ensures IfRead(toks, p, ThenPos(p, c), ElsePos(p, c), q)
    decreases c, 2
  {
    assert At(toks, p, S.IfKw) && p < ThenPos(p, c) && S.Comparison(toks, p + 1) == Ok(ThenPos(p, c)) && At(toks, ThenPos(p, c), S.ThenKw) by {
      IfHead(toks, p, c, q);
      ComparisonReads(toks, p + 1, c.left, RelPos(p, c), c.right, ThenPos(p, c));
    }
    BranchesReads(toks, p, c, q);
  }

  /** The comparison of a well-formed IF, and THEN after it. */
  lemma {:induction false} IfHead(toks: seq<Token>, p: nat, c: Cmd, q: nat)
    requires c.If? && Placed(toks, p, c, q)
    ensures SumOk(c.left) && Reads(toks, p + 1, SumTokens(c.left)) && RelPos(p, c) == p + 1 + |SumTokens(c.left)|
    ensures RelPos(p, c) < |toks| && IsRel(toks[RelPos(p, c)]) && SumOk(c.right) && Reads(toks, RelPos(p, c) + 1, SumTokens(c.right))
    ensures ThenPos(p, c) == RelPos(p, c) + 1 + |SumTokens(c.right)| && At(toks, p, S.IfKw) && At(toks, ThenPos(p, c), S.ThenKw)
  {
    IfParts(toks, p, c);
  }

  /** Both branches of a well-formed IF are read, THEN not starting with ELSE. */
  lemma {:induction false} BranchesReads(toks: seq<Token>, p: nat, c: Cmd, q: nat)
    requires c.If? && Placed(toks, p, c, q)
    ensures BranchesRead(toks, ThenPos(p, c) + 1, ElsePos(p, c), q)
    decreases c, 1
  {
    ElseAfterThen(toks, p, c, q);
    ThenStart(toks, p, c, q);
    ThenReads(toks, p, c, q);
    ElseReads(toks, p, c, q);
  }

  lemma {:induction false} ThenReads(toks: seq<Token>, p: nat, c: Cmd, q: nat)
    requires c.If? && Placed(toks, p, c, q)
    ensures S.Command(toks, ThenPos(p, c) + 1) == Ok(ElsePos(p, c))
    decreases c, 0
  {
    assert Placed(toks, ThenPos(p, c) + 1, c.thenCmd, ElsePos(p, c)) by {
      ThenPlaced(toks, p, c, q);
    }
    CommandReads(toks, ThenPos(p, c) + 1, c.thenCmd, ElsePos(p, c));
  }

  lemma {:induction false} ElseReads(toks: seq<Token>, p: nat, c: Cmd, q: nat)
    requires c.If? && Placed(toks, p, c, q)
    ensures S.Command(toks, ElsePos(p, c) + 1) == Ok(q)
    decreases c, 0
  {
    ElsePlaced(toks, p, c, q);
    CommandReads(toks, ElsePos(p, c) + 1, c.elseCmd, q);
  }

  /** The THEN branch of a well-formed IF ends at ELSE. */
  lemma {:induction false} ThenPlaced(toks: seq<Token>, p: nat, c: Cmd, q: nat)
    requires c.If? && Placed(toks, p, c, q)
    ensures Placed(toks, ThenPos(p, c) + 1, c.thenCmd, ElsePos(p, c))
  {
    IfParts(toks, p, c);
  }

  /** The THEN branch is not empty, so it does not start with ELSE. */
  lemma {:induction false} ThenStart(toks: seq<Token>, p: nat, c: Cmd, q: nat)
    requires c.If? && Placed(toks, p, c, q)
    ensures !At(toks, ThenPos(p, c) + 1, S.ElseKw)
  {
    assert Placed(toks, ThenPos(p, c) + 1, c.thenCmd, ElsePos(p, c)) by {
      ThenPlaced(toks, p, c, q);
    }
    NonEmptyStart(toks, ThenPos(p, c) + 1, c.thenCmd);
  }

  /** ELSE stands after a non-empty THEN branch. */
  lemma {:induction false} ElseAfterThen(toks: seq<Token>, p: nat, c: Cmd, q: nat)
    requires c.If? && Placed(toks, p, c, q)
    ensures ElsePos(p, c) > ThenPos(p, c) + 1 && At(toks, ElsePos(p, c), S.ElseKw)
  {
    IfParts(toks, p, c);
    WidthPositive(c.thenCmd);
  }

  /** The ELSE branch of a well-formed IF ends where the IF does. */
  lemma {:induction false} ElsePlaced(toks: seq<Token>, p: nat, c: Cmd, q: nat)
    requires c.If? && Placed(toks, p, c, q)
    ensures Placed(toks, ElsePos(p, c) + 1, c.elseCmd, q)
  {
    IfParts(toks, p, c);
  }

  /** Only the empty command takes no tokens. */
  lemma {:induction false} WidthPositive(c: Cmd)
    requires c != Empty
    ensures Width(c) > 0
  {
  }

  /** The rest of parseDecisao, from the results of its two commands. */
  lemma {:induction false} BranchesStep(toks: seq<Token>, p: nat, p6: nat, q: nat)
    requires p < p6 < |toks| && S.Command(toks, p) == Ok(p6) && At(toks, p6, S.ElseKw) && S.Command(toks, p6 + 1) == Ok(q)
    ensures S.Branches(toks, p) == Ok(q)
  {
  }

  /** parseDecisao, from the results of its comparison and its two commands. */
  lemma {:induction false} IfStep(toks: seq<Token>, p: nat, p4: nat, e: nat, q: nat)
    requires IfRead(toks, p, p4, e, q)
    ensures S.Command(toks, p) == Ok(q)
  {
    BranchesStep(toks, p4 + 1, e, q);
    DecisionStep(toks, p, p4, q);
  }

  /** parseDecisao, from the results of its parts. */
  lemma {:induction false} DecisionStep(toks: seq<Token>, p: nat, p4: nat, q: nat)
    requires At(toks, p, S.IfKw) && p < p4 < |toks|
    requires S.Comparison(toks, p + 1) == Ok(p4) && At(toks, p4, S.ThenKw) && !At(toks, p4 + 1, S.ElseKw)
    requires S.Branches(toks, p4 + 1) == Ok(q)
    ensures S.Command(toks, p) == Ok(q)
  {
    assert S.Decision(toks, p) == Ok(q);
  }

  // ---------------------------------------------------------------------
  // Everything accepted is a well-formed program
  // ---------------------------------------------------------------------

  /** What the parser accepts is a well-formed program followed by END. */
  lemma {:induction false} AcceptedIsProgram(toks: seq<Token>) returns (prog: Program)
    requires S.Program(toks).Ok?
    ensures ProgramOk(prog) && Written(toks, prog)
  {
    var cmds, e := SeqOf(toks, 0);
    prog := Program(cmds);
  }

  /** What the command sequence accepts is commands separated by `;`, not followed by `;`. */
  lemma {:induction false} SeqOf(toks: seq<Token>, p: nat) returns (cmds: seq<Cmd>, e: nat)
    requires p <= |toks| && S.CommandSequence(toks, p).Ok?
    ensures SeqParsed(toks, p, cmds, e) && S.CommandSequence(toks, p) == Ok(e)
    decreases |toks| - p
  {
    var c, q := CmdOf(toks, p);
    if At(toks, q, Semi) {
      SeqStepOf(toks, p, q);
      var rest;
      rest, e := SeqOf(toks, q + 1);
      cmds := SeqParsedCons(toks, p, c, q, rest, e);
    } else {
      SeqEndStepOf(toks, p, q);
      e := q;
      cmds := SeqParsedOne(toks, p, c, q);
    }
  }

  /** After a command and `;`, parseSequenciaDeComandos goes on with the sequence after `;`. */
  lemma {:induction false} SeqStepOf(toks: seq<Token>, p: nat, q: nat)
    requires p <= |toks| && S.CommandSequence(toks, p).Ok? && S.Command(toks, p) == Ok(q) && At(toks, q, Semi)
    ensures S.CommandSequence(toks, q + 1).Ok? && S.CommandSequence(toks, p) == S.CommandSequence(toks, q + 1)
  {
    assert S.SequenceTail(toks, q) == S.CommandSequence(toks, q + 1);
  }

  /** With no `;` after its first command, parseSequenciaDeComandos ends there. */
  lemma {:induction false} SeqEndStepOf(toks: seq<Token>, p: nat, q: nat)
    requires p <= |toks| && S.Command(toks, p) == Ok(q) && !At(toks, q, Semi)
    ensures S.CommandSequence(toks, p) == Ok(q)
  {
    assert S.SequenceTail(toks, q) == Ok(q);
  }

  lemma {:induction false} SeqParsedCons(toks: seq<Token>, p: nat, c: Cmd, q: nat, rest: seq<Cmd>, e: nat) returns (cmds: seq<Cmd>)
    requires Parsed(toks, p, c, q) && At(toks, q, Semi) && SeqParsed(toks, q + 1, rest, e)
    ensures cmds == [c] + rest && SeqParsed(toks, p, cmds, e)
  {
    cmds := SeqCons(toks, p, c, q, rest);
    assert cmds[1..] == rest;
  }

  lemma {:induction false} SeqParsedOne(toks: seq<Token>, p: nat, c: Cmd, q: nat) returns (cmds: seq<Cmd>)
    requires Parsed(toks, p, c, q) && !At(toks, q, Semi)
    ensures cmds == [c] && SeqParsed(toks, p, cmds, q)
  {
    cmds := [c];
    assert cmds[1..] == [];
  }

  /** What the command rule accepts is a well-formed command. */
  lemma {:induction false} CmdOf(toks: seq<Token>, p: nat) returns (c: Cmd, q: nat)
    requires p <= |toks| && S.Command(toks, p).Ok?
    ensures Parsed(toks, p, c, q) && S.Command(toks, p) == Ok(q)
    decreases |toks| - p, 2
  {
    if p >= |toks| {
      c, q := Empty, p;
    } else {
      var k := toks[p].kind;
      if k == S.LetKw {
        c, q := LetOf(toks, p);
      } else if k == S.GoKw {
        c, q := JumpOf(toks, p);
      } else if k == S.ReadKw {
        c, q := ReadOf(toks, p);
      } else if k == S.PrintKw {
        c, q := PrintOf(toks, p);
      } else if k == S.IfKw {
        c, q := IfOf(toks, p);
      } else if k == Identifier && At(toks, p + 1, Colon) {
        c, q := LabelledOf(toks, p);
      } else {
        c, q := Empty, p;
      }
    }
  }

  lemma {:induction false} LabelledOf(toks: seq<Token>, p: nat) returns (c: Cmd, q: nat)
    requires At(toks, p, Identifier) && At(toks, p + 1, Colon) && S.Command(toks, p).Ok?
    ensures Parsed(toks, p, c, q) && S.Command(toks, p) == Ok(q)
    decreases |toks| - p, 1
  {
    LabelStep(toks, p);
    var b;
    b, q := CmdOf(toks, p + 2);
    c := Labelled(toks[p], b);
  }

  lemma {:induction false} LetOf(toks: seq<Token>, p: nat) returns (c: Cmd, q: nat)
    requires At(toks, p, S.LetKw) && S.Command(toks, p).Ok?
    ensures Parsed(toks, p, c, q) && S.Command(toks, p) == Ok(q)
  {
    assert S.Command(toks, p) == S.Assignment(toks, p);
    var e := SumOf(toks, p + 3);
    c := Let(toks[p + 1], e);
    q := p + 3 + |SumTokens(e)|;
  }

  lemma {:induction false} JumpOf(toks: seq<Token>, p: nat) returns (c: Cmd, q: nat)
    requires At(toks, p, S.GoKw) && S.Command(toks, p).Ok?
    ensures Parsed(toks, p, c, q) && S.Command(toks, p) == Ok(q)
  {
    c := Jump(toks[p + 2]);
    q := p + 3;
  }

  /** What READ accepts is a list of identifiers. */
  lemma {:induction false} ReadOf(toks: seq<Token>, p: nat) returns (c: Cmd, q: nat)
    requires At(toks, p, S.ReadKw) && S.Command(toks, p).Ok?
    ensures Parsed(toks, p, c, q) && S.Command(toks, p) == Ok(q)
  {
    assert S.Command(toks, p) == S.IdentifierList(toks, p + 1);
    var ns;
    if At(toks, p + 1, Identifier) {
      var more := SNamesOf(toks, p + 2);
      ns := NamesCons(toks, p + 1, more);
    } else {
      ns := [];
    }
    c := Read(ns);
    q := p + 1 + NamesWidth(ns);
  }

  lemma {:induction false} PrintOf(toks: seq<Token>, p: nat) returns (c: Cmd, q: nat)
    requires At(toks, p, S.PrintKw) && S.Command(toks, p).Ok?
    ensures Parsed(toks, p, c, q) && S.Command(toks, p) == Ok(q)
  {
    assert S.Command(toks, p) == S.ExpressionList(toks, p + 1);
    var es := ExprsOf(toks, p + 1);
    c := Print(es);
    q := p + 1 + ExprsWidth(es);
  }

  /** What parseDecisao accepts is a well-formed IF. */
  lemma {:induction false} IfOf(toks: seq<Token>, p: nat) returns (c: Cmd, q: nat)
    requires At(toks, p, S.IfKw) && S.Command(toks, p).Ok?
    ensures Parsed(toks, p, c, q) && S.Command(toks, p) == Ok(q)
    decreases |toks| - p, 0
  {
    var p4 := DecisionParts(toks, p);
    var c1, p6, c2;
    c1, p6, c2, q := BranchesOf(toks, p4 + 1);
    var a, p2, b := ComparisonOf(toks, p + 1);
    c := IfBuilt(toks, p, a, p2, b, p4, c1, p6, c2, q);
  }

  /** What the rest of parseDecisao accepts: a command, ELSE, and a command. */
  lemma {:induction false} BranchesOf(toks: seq<Token>, t: nat) returns (c1: Cmd, p6: nat, c2: Cmd, q: nat)
    requires t <= |toks| && S.Branches(toks, t).Ok?
    ensures Parsed(toks, t, c1, p6) && At(toks, p6, S.ElseKw) && Parsed(toks, p6 + 1, c2, q)
    ensures S.Branches(toks, t) == Ok(q)
    decreases |toks| - t, 3
  {
    p6 := BranchesParts(toks, t);
    var q1;
    c1, q1 := CmdOf(toks, t);
    c2, q := CmdOf(toks, p6 + 1);
  }

  /** What parseDecisao reads: a comparison ending at THEN at p4, then the
      branches, which do not start with ELSE. */
  lemma {:induction false} DecisionParts(toks: seq<Token>, p: nat) returns (p4: nat)
    requires At(toks, p, S.IfKw) && S.Command(toks, p).Ok?
    ensures p < p4 < |toks| && S.Comparison(toks, p + 1) == Ok(p4) && At(toks, p4, S.ThenKw)
    ensures !At(toks, p4 + 1, S.ElseKw) && S.Branches(toks, p4 + 1).Ok? && S.Command(toks, p) == S.Branches(toks, p4 + 1)
  {
    assert S.Command(toks, p) == S.Decision(toks, p);
    p4 := S.Comparison(toks, p + 1).pos;
  }

  /** What the rest of parseDecisao reads: a command ending at ELSE at p6, and a command. */
  lemma {:induction false} BranchesParts(toks: seq<Token>, p: nat) returns (p6: nat)
    requires p <= |toks| && S.Branches(toks, p).Ok?
    ensures p <= p6 < |toks| && S.Command(toks, p) == Ok(p6) && At(toks, p6, S.ElseKw)
    ensures S.Command(toks, p6 + 1).Ok? && S.Branches(toks, p) == S.Command(toks, p6 + 1)
  {
    p6 := S.Command(toks, p).pos;
  }

  /** An IF put together from parts read where they stand. */
  lemma {:induction false} IfBuilt(toks: seq<Token>, p: nat, a: Sum, p2: nat, b: Sum, p4: nat, c1: Cmd, p6: nat, c2: Cmd, q: nat)
    returns (c: Cmd)
    requires At(toks, p, S.IfKw) && SumOk(a) && Reads(toks, p + 1, SumTokens(a)) && p2 == p + 1 + |SumTokens(a)|
    requires p2 < |toks| && IsRel(toks[p2]) && SumOk(b) && Reads(toks, p2 + 1, SumTokens(b)) && p4 == p2 + 1 + |SumTokens(b)|
    requires At(toks, p4, S.ThenKw) && !At(toks, p4 + 1, S.ElseKw)
    requires Parsed(toks, p4 + 1, c1, p6) && At(toks, p6, S.ElseKw) && Parsed(toks, p6 + 1, c2, q)
    ensures c == If(a, toks[p2], b, c1, c2) && Parsed(toks, p, c, q)
  {
    c := If(a, toks[p2], b, c1, c2);
    assert c1 != Empty;
    assert RelPos(p, c) == p2 && ThenPos(p, c) == p4 && ElsePos(p, c) == p6;
  }

  /** The parser accepts a token list exactly when it is a well-formed
      program followed by END. */
  lemma {:induction false} AcceptsExactlyPrograms(toks: seq<Token>)
    ensures S.Program(toks).Ok? <==> exists prog :: ProgramOk(prog) && Written(toks, prog)
  {
    if S.Program(toks).Ok? {
      var prog := AcceptedIsProgram(toks);
    }
    if exists prog :: ProgramOk(prog) && Written(toks, prog) {
      var prog :| ProgramOk(prog) && Written(toks, prog);
      ProgramAccepted(toks, prog);
    }
  }
}
