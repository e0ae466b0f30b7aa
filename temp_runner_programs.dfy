/**
 * Which programs tempCodeRunnerFile.py accepts. A command stands bare or
 * behind one label; a bare command is empty, an assignment, a GO TO (with
 * a non-empty label list after OF, or none), a READ, a PRINT or an IF whose
 * branches are commands that may carry a label, the THEN branch included
 * and possibly empty. A `;` may not stand right in front of END, so the last
 * command of two or more is not the empty command. The parser accepts a
 * token list exactly when it is such a program followed by END
 * (AcceptsExactlyPrograms).
 */
module TempRunnerPrograms {
  import opened TableLexer
  import opened TableSyntax
  import T = TempRunnerGrammar
  import opened TablePrograms

  /** A command without a label in front of it, well formed. */
  predicate BareOk(c: Cmd)
    decreases c, 0
  {
    match c
    case Empty => true
    case Labelled(_, _) => false
    case Let(x, e) => x.kind == Identifier && SumOk(e)
    case Jump(l) => l.kind == Identifier
    case ComputedJump(l, ls) => l.kind == Identifier && ls != [] && AllIdentifiers(ls)
    case Read(ns) => AllIdentifiers(ns)
    case Print(es) => SumsOk(es)
    case If(a, rel, b, c1, c2) => SumOk(a) && IsRel(rel) && SumOk(b) && WrappedOk(c1) && WrappedOk(c2)
  }

  /** A well-formed command with at most one label in front of it. */
  predicate WrappedOk(c: Cmd)
    decreases c, 1
  {
    if c.Labelled? then c.labelName.kind == Identifier && BareOk(c.body) else BareOk(c)
  }

  predicate CmdsOk(cmds: seq<Cmd>)
    decreases cmds
  {
    cmds == [] || (WrappedOk(cmds[0]) && CmdsOk(cmds[1..]))
  }

  /** After `;` END may not follow: the last of two commands or more is not empty. */
  predicate LastOk(cmds: seq<Cmd>) {
    |cmds| >= 2 ==> cmds[|cmds| - 1] != Empty
  }

  /** One command or more, each well formed, the last not empty after a `;`. */
  predicate ProgramOk(prog: Program) {
    |prog.cmds| >= 1 && CmdsOk(prog.cmds) && LastOk(prog.cmds)
  }

  /** A well-formed command stands at p and ends at q, where `;`, END or ELSE follows. */
  predicate Placed(toks: seq<Token>, p: nat, c: Cmd, q: nat) {
    WrappedOk(c) && CmdAt(toks, p, c) && q == p + Width(c) && Follow(toks, q)
  }

  /** The same for a command without a label. */
  predicate BarePlaced(toks: seq<Token>, p: nat, c: Cmd, q: nat) {
    BareOk(c) && CmdAt(toks, p, c) && q == p + Width(c) && Follow(toks, q)
  }

  /** Well-formed commands stand at p, separated by `;`, and END at e. */
  predicate SeqPlaced(toks: seq<Token>, p: nat, cmds: seq<Cmd>, e: nat) {
    CmdsOk(cmds) && LastOk(cmds) && SeqAt(toks, p, cmds) && e == p + SeqWidth(cmds) && At(toks, e, T.EndKw)
  }

  /** A well-formed command stands at p and ends at q. */
  predicate Parsed(toks: seq<Token>, p: nat, c: Cmd, q: nat) {
    WrappedOk(c) && CmdAt(toks, p, c) && q == p + Width(c)
  }

  /** The same for a command without a label. */
  predicate BareParsed(toks: seq<Token>, p: nat, c: Cmd, q: nat) {
    BareOk(c) && CmdAt(toks, p, c) && q == p + Width(c)
  }

  /** Well-formed commands stand at p, separated by `;`, and end at e, where
      no `;` follows; when END follows, the last of two or more is not empty. */
  predicate SeqParsed(toks: seq<Token>, p: nat, cmds: seq<Cmd>, e: nat) {
    CmdsOk(cmds) && SeqAt(toks, p, cmds) && e == p + SeqWidth(cmds) && !At(toks, e, Semi)
    && (At(toks, e, T.EndKw) ==> LastOk(cmds))
  }

  // ---------------------------------------------------------------------
  // Every well-formed program is accepted
  // ---------------------------------------------------------------------

  /** analisar accepts every well-formed program followed by END. */
  lemma {:induction false} ProgramAccepted(toks: seq<Token>, prog: Program)
    requires ProgramOk(prog) && Written(toks, prog)
    ensures T.Analyze(toks) == Ok(|toks|)
  {
    assert SeqPlaced(toks, 0, prog.cmds, |toks| - 1);
    SeqReads(toks, 0, prog.cmds, |toks| - 1);
    AnalyzeStep(toks, |toks| - 1);
  }

  /** analisar, from the command sequence ending at the last token, END. */
  lemma {:induction false} AnalyzeStep(toks: seq<Token>, e: nat)
    requires e + 1 == |toks| && At(toks, e, T.EndKw) && T.CommandSequence(toks, 0) == Ok(e)
    ensures T.Analyze(toks) == Ok(|toks|)
  {
    assert T.Program(toks) == Ok(|toks|);
  }

  /** The command sequence reads well-formed commands up to END. */
  lemma {:induction false} SeqReads(toks: seq<Token>, p: nat, cmds: seq<Cmd>, e: nat)
    requires SeqPlaced(toks, p, cmds, e)
    ensures T.CommandSequence(toks, p) == Ok(e)
    decreases cmds, 1
  {
    if |cmds| == 1 {
      LastReads(toks, p, cmds, e);
      SeqEndStep(toks, p, e);
    } else {
      MoreReads(toks, p, cmds, e);
    }
  }

  /** A sequence of two or more commands: the first, `;`, and the rest. */
  lemma {:induction false} MoreReads(toks: seq<Token>, p: nat, cmds: seq<Cmd>, e: nat)
    requires |cmds| >= 2 && SeqPlaced(toks, p, cmds, e)
    ensures T.CommandSequence(toks, p) == Ok(e)
    decreases cmds, 0
  {
    HeadReads(toks, p, cmds, e);
    SeqReads(toks, p + Width(cmds[0]) + 1, cmds[1..], e);
    SeqStep(toks, p, p + Width(cmds[0]), e);
  }

  /** The label wrapper reads a command and stops in front of `;`, and no END follows the `;`. */
  predicate HeadRead(toks: seq<Token>, p: nat, q: nat) {
    p <= q < |toks| && T.Wrapped(toks, p) == Ok(q) && At(toks, q, Semi) && !At(toks, q + 1, T.EndKw)
  }

  /** The label wrapper reads a command and stops in front of something else than `;`. */
  predicate LastRead(toks: seq<Token>, p: nat, e: nat) {
    p <= e <= |toks| && T.Wrapped(toks, p) == Ok(e) && !At(toks, e, Semi)
  }

  /** The only command of a sequence is read up to END. */
  lemma {:induction false} LastReads(toks: seq<Token>, p: nat, cmds: seq<Cmd>, e: nat)
    requires |cmds| == 1 && SeqPlaced(toks, p, cmds, e)
    ensures LastRead(toks, p, e)
  {
    assert Placed(toks, p, cmds[0], e) && At(toks, e, T.EndKw);
    WrappedReads(toks, p, cmds[0], e);
  }

  /** The first command of a longer sequence is read up to `;`, and the rest is well formed. */
  lemma {:induction false} HeadReads(toks: seq<Token>, p: nat, cmds: seq<Cmd>, e: nat)
    requires |cmds| >= 2 && SeqPlaced(toks, p, cmds, e)
    ensures HeadRead(toks, p, p + Width(cmds[0])) && SeqPlaced(toks, p + Width(cmds[0]) + 1, cmds[1..], e)
  {
    HeadPlaced(toks, p, cmds, e);
    RestStart(toks, p + Width(cmds[0]) + 1, cmds[1..], e);
    FirstReads(toks, p, cmds[0], p + Width(cmds[0]));
  }

  /** A command followed by `;` and no END is read up to the `;`. */
  lemma {:induction false} FirstReads(toks: seq<Token>, p: nat, c: Cmd, q: nat)
    requires Placed(toks, p, c, q) && At(toks, q, Semi) && !At(toks, q + 1, T.EndKw)
    ensures HeadRead(toks, p, q)
  {
    WrappedReads(toks, p, c, q);
  }

  /** The first command of a longer sequence, `;`, and the rest, each placed. */
  lemma {:induction false} HeadPlaced(toks: seq<Token>, p: nat, cmds: seq<Cmd>, e: nat)
    requires |cmds| >= 2 && SeqPlaced(toks, p, cmds, e)
    ensures Placed(toks, p, cmds[0], p + Width(cmds[0])) && At(toks, p + Width(cmds[0]), Semi)
    ensures SeqPlaced(toks, p + Width(cmds[0]) + 1, cmds[1..], e)
  {
    SeqParts(toks, p, cmds);
    assert WrappedOk(cmds[0]) && CmdsOk(cmds[1..]);
    LastOfRest(cmds);
  }

  /** The rest of a sequence ends with the same command. */
  lemma {:induction false} LastOfRest(cmds: seq<Cmd>)
    requires |cmds| >= 2 && LastOk(cmds)
    ensures LastOk(cmds[1..])
  {
    assert cmds[1..][|cmds| - 2] == cmds[|cmds| - 1];
  }

  /** The rest of a sequence after a `;` does not start with END. */
  lemma {:induction false} RestStart(toks: seq<Token>, p: nat, cmds: seq<Cmd>, e: nat)
    requires SeqPlaced(toks, p, cmds, e) && (|cmds| == 1 ==> cmds[0] != Empty)
    ensures !At(toks, p, T.EndKw)
  {
    if cmds[0] != Empty {
      assert CmdAt(toks, p, cmds[0]) && WrappedOk(cmds[0]);
      NonEmptyStart(toks, p, cmds[0]);
    } else {
      SeqParts(toks, p, cmds);
    }
  }

  /** _analisar_sequencia_de_comandos, from its first command and the sequence after `;`. */
  lemma {:induction false} SeqStep(toks: seq<Token>, p: nat, q: nat, e: nat)
    requires HeadRead(toks, p, q) && T.CommandSequence(toks, q + 1) == Ok(e)
    ensures T.CommandSequence(toks, p) == Ok(e)
  {
    assert T.SequenceLoop(toks, q) == Ok(e);
  }

  /** _analisar_sequencia_de_comandos, from its only command. */
  lemma {:induction false} SeqEndStep(toks: seq<Token>, p: nat, e: nat)
    requires LastRead(toks, p, e)
    ensures T.CommandSequence(toks, p) == Ok(e)
  {
    assert T.SequenceLoop(toks, e) == Ok(e);
  }

  /** The label wrapper reads a well-formed command up to what follows it. */
  lemma {:induction false} WrappedReads(toks: seq<Token>, p: nat, c: Cmd, q: nat)
    requires Placed(toks, p, c, q)
    ensures T.Wrapped(toks, p) == Ok(q)
    decreases c, 6
  {
    if c.Labelled? {
      LabelledReads(toks, p, c, q);
    } else {
      BareWrappedReads(toks, p, c, q);
    }
  }

  /** A label is passed over, then the command after it is read. */
  lemma {:induction false} LabelledReads(toks: seq<Token>, p: nat, c: Cmd, q: nat)
    requires c.Labelled? && Placed(toks, p, c, q)
    ensures T.Wrapped(toks, p) == Ok(q)
    decreases c, 5
  {
    assert BarePlaced(toks, p + 2, c.body, q) && T.LabelAt(toks, p);
    CommandReads(toks, p + 2, c.body, q);
  }

  /** A command without a label is read by the command rule itself. */
  lemma {:induction false} BareWrappedReads(toks: seq<Token>, p: nat, c: Cmd, q: nat)
    requires !c.Labelled? && Placed(toks, p, c, q)
    ensures T.Wrapped(toks, p) == Ok(q)
    decreases c, 5
  {
    assert BarePlaced(toks, p, c, q) && !T.LabelAt(toks, p) by {
      BareStart(toks, p, c, q);
    }
    CommandReads(toks, p, c, q);
  }

  /** A command without a label does not start with `label :`. */
  lemma {:induction false} BareStart(toks: seq<Token>, p: nat, c: Cmd, q: nat)
    requires !c.Labelled? && Placed(toks, p, c, q)
    ensures !At(toks, p, Identifier)
  {
    if c == Empty {
      FollowStops(toks, p);
    }
  }

  /** The command rule reads a well-formed command without a label up to what follows it. */
  lemma {:induction false} CommandReads(toks: seq<Token>, p: nat, c: Cmd, q: nat)
    requires BarePlaced(toks, p, c, q)
    ensures T.Command(toks, p) == Ok(q)
    decreases c, 4
  {
    match c
    case Empty => FollowIsEmpty(toks, p);
    case Let(_, _) => LetReads(toks, p, c, q);
    case Jump(_) => JumpReads(toks, p, c, q);
    case ComputedJump(_, _) => ComputedJumpReads(toks, p, c, q);
    case Read(_) => ReadReads(toks, p, c, q);
    case Print(_) => PrintReads(toks, p, c, q);
    case If(_, _, _, _, _) => IfReads(toks, p, c, q);
  }

  /** On `;`, END or ELSE the command rule reads nothing. */
  lemma {:induction false} FollowIsEmpty(toks: seq<Token>, p: nat)
    requires Follow(toks, p)
    ensures T.Command(toks, p) == Ok(p)
  {
  }

  lemma {:induction false} LetReads(toks: seq<Token>, p: nat, c: Cmd, q: nat)
    requires c.Let? && BarePlaced(toks, p, c, q)
    ensures T.Command(toks, p) == Ok(q)
  {
    FollowStops(toks, q);
    SumReads(toks, p + 3, c.value);
  }

  lemma {:induction false} JumpReads(toks: seq<Token>, p: nat, c: Cmd, q: nat)
    requires c.Jump? && BarePlaced(toks, p, c, q)
    ensures T.Command(toks, p) == Ok(q)
  {
  }

  /** GO TO l OF l1 , ... , lk: the label list is read by the label loop. */
  lemma {:induction false} ComputedJumpReads(toks: seq<Token>, p: nat, c: Cmd, q: nat)
    requires c.ComputedJump? && BarePlaced(toks, p, c, q)
    ensures T.Command(toks, p) == Ok(q)
  {
    var ls := c.labels;
    FollowStops(toks, q);
    assert AllIdentifiers(ls[1..]) by {
      forall i | 0 <= i < |ls[1..]| ensures ls[1..][i].kind == Identifier {
        assert ls[1..][i] == ls[i + 1];
      }
    }
    MoreNamesRead(toks, p + 5, ls[1..]);
  }

  lemma {:induction false} ReadReads(toks: seq<Token>, p: nat, c: Cmd, q: nat)
    requires c.Read? && BarePlaced(toks, p, c, q)
    ensures T.Command(toks, p) == Ok(q)
  {
    var ns := c.names;
    FollowStops(toks, q);
    if ns != [] {
      assert AllIdentifiers(ns[1..]) by {
        forall i | 0 <= i < |ns[1..]| ensures ns[1..][i].kind == Identifier {
          assert ns[1..][i] == ns[i + 1];
        }
      }
      MoreNamesRead(toks, p + 2, ns[1..]);
    }
  }

  lemma {:induction false} PrintReads(toks: seq<Token>, p: nat, c: Cmd, q: nat)
    requires c.Print? && BarePlaced(toks, p, c, q)
    ensures T.Command(toks, p) == Ok(q)
  {
    ExprsRead(toks, p + 1, c.values, q);
  }

  lemma {:induction false} IfReads(toks: seq<Token>, p: nat, c: Cmd, q: nat)
    requires c.If? && BarePlaced(toks, p, c, q)
    ensures T.Command(toks, p) == Ok(q)
    decreases c, 3
  {
    IfFacts(toks, p, c, q);
    IfStep(toks, p, ThenPos(p, c), ElsePos(p, c), q);
  }

  /** What _analisar_decisao reads, part by part: IF, the comparison up to
      THEN, the THEN branch up to ELSE, and the ELSE branch. */
  predicate IfRead(toks: seq<Token>, p: nat, p4: nat, e: nat, q: nat) {
    At(toks, p, T.IfKw) && p < p4
    && T.Comparison(toks, p + 1) == Ok(p4) && At(toks, p4, T.ThenKw) && BranchesRead(toks, p4 + 1, e, q)
  }

  /** What the rest of _analisar_decisao reads: a command, ELSE, and a command. */
  predicate BranchesRead(toks: seq<Token>, t: nat, e: nat, q: nat) {
    t <= e < |toks| && T.Wrapped(toks, t) == Ok(e) && At(toks, e, T.ElseKw) && T.Wrapped(toks, e + 1) == Ok(q)
  }

  /** What the parser reads of a well-formed IF, part by part. */
  lemma {:induction false} IfFacts(toks: seq<Token>, p: nat, c: Cmd, q: nat)
    requires c.If? && BarePlaced(toks, p, c, q)
    ensures IfRead(toks, p, ThenPos(p, c), ElsePos(p, c), q)
    decreases c, 2
  {
    assert At(toks, p, T.IfKw) && p < ThenPos(p, c) && T.Comparison(toks, p + 1) == Ok(ThenPos(p, c))
      && At(toks, ThenPos(p, c), T.ThenKw) by {
      IfHead(toks, p, c, q);
      ComparisonReads(toks, p + 1, c.left, RelPos(p, c), c.right, ThenPos(p, c));
    }
    BranchesReads(toks, p, c, q);
  }

  /** The comparison of a well-formed IF, and THEN after it. */
  lemma {:induction false} IfHead(toks: seq<Token>, p: nat, c: Cmd, q: nat)
    requires c.If? && BarePlaced(toks, p, c, q)
    ensures SumOk(c.left) && Reads(toks, p + 1, SumTokens(c.left)) && RelPos(p, c) == p + 1 + |SumTokens(c.left)|
    ensures RelPos(p, c) < |toks| && IsRel(toks[RelPos(p, c)]) && SumOk(c.right) && Reads(toks, RelPos(p, c) + 1, SumTokens(c.right))
    ensures ThenPos(p, c) == RelPos(p, c) + 1 + |SumTokens(c.right)| && At(toks, p, T.IfKw) && At(toks, ThenPos(p, c), T.ThenKw)
  {
    IfParts(toks, p, c);
  }

  /** Both branches of a well-formed IF are read. */
  lemma {:induction false} BranchesReads(toks: seq<Token>, p: nat, c: Cmd, q: nat)
    requires c.If? && BarePlaced(toks, p, c, q)
    ensures BranchesRead(toks, ThenPos(p, c) + 1, ElsePos(p, c), q)
    decreases c, 1
  {
    ElseAfterThen(toks, p, c, q);
    ThenReads(toks, p, c, q);
    ElseReads(toks, p, c, q);
  }

  lemma {:induction false} ThenReads(toks: seq<Token>, p: nat, c: Cmd, q: nat)
    requires c.If? && BarePlaced(toks, p, c, q)
    ensures T.Wrapped(toks, ThenPos(p, c) + 1) == Ok(ElsePos(p, c))
    decreases c, 0
  {
    assert Placed(toks, ThenPos(p, c) + 1, c.thenCmd, ElsePos(p, c)) by {
      ThenPlaced(toks, p, c, q);
    }
    WrappedReads(toks, ThenPos(p, c) + 1, c.thenCmd, ElsePos(p, c));
  }

  lemma {:induction false} ElseReads(toks: seq<Token>, p: nat, c: Cmd, q: nat)
    requires c.If? && BarePlaced(toks, p, c, q)
    ensures T.Wrapped(toks, ElsePos(p, c) + 1) == Ok(q)
    decreases c, 0
  {
    assert Placed(toks, ElsePos(p, c) + 1, c.elseCmd, q) by {
      ElsePlaced(toks, p, c, q);
    }
    WrappedReads(toks, ElsePos(p, c) + 1, c.elseCmd, q);
  }

  /** The THEN branch of a well-formed IF ends at ELSE. */
  lemma {:induction false} ThenPlaced(toks: seq<Token>, p: nat, c: Cmd, q: nat)
    requires c.If? && BarePlaced(toks, p, c, q)
    ensures Placed(toks, ThenPos(p, c) + 1, c.thenCmd, ElsePos(p, c))
  {
    IfParts(toks, p, c);
  }

  /** ELSE stands after the THEN branch. */
  lemma {:induction false} ElseAfterThen(toks: seq<Token>, p: nat, c: Cmd, q: nat)
    requires c.If? && BarePlaced(toks, p, c, q)
    ensures ThenPos(p, c) + 1 <= ElsePos(p, c) && At(toks, ElsePos(p, c), T.ElseKw)
  {
    IfParts(toks, p, c);
  }

  /** The ELSE branch of a well-formed IF ends where the IF does. */
  lemma {:induction false} ElsePlaced(toks: seq<Token>, p: nat, c: Cmd, q: nat)
    requires c.If? && BarePlaced(toks, p, c, q)
    ensures Placed(toks, ElsePos(p, c) + 1, c.elseCmd, q)
  {
    IfParts(toks, p, c);
  }

  /** _analisar_decisao, from the results of its comparison and its two commands. */
  lemma {:induction false} IfStep(toks: seq<Token>, p: nat, p4: nat, e: nat, q: nat)
    requires IfRead(toks, p, p4, e, q)
    ensures T.Command(toks, p) == Ok(q)
  {
    BranchesStep(toks, p4 + 1, e, q);
    DecisionStep(toks, p, p4, q);
  }

  /** The rest of _analisar_decisao, from the results of its two commands. */
  lemma {:induction false} BranchesStep(toks: seq<Token>, t: nat, e: nat, q: nat)
    requires BranchesRead(toks, t, e, q)
    ensures T.Branches(toks, t) == Ok(q)
  {
  }

  /** _analisar_decisao, from the results of its parts. */
  lemma {:induction false} DecisionStep(toks: seq<Token>, p: nat, p4: nat, q: nat)
    requires At(toks, p, T.IfKw) && p < p4 < |toks|
    requires T.Comparison(toks, p + 1) == Ok(p4) && At(toks, p4, T.ThenKw) && T.Branches(toks, p4 + 1) == Ok(q)
    ensures T.Command(toks, p) == Ok(q)
  {
    assert T.Decision(toks, p) == Ok(q);
  }

  // ---------------------------------------------------------------------
  // Everything accepted is a well-formed program
  // ---------------------------------------------------------------------

  /** What analisar accepts is a well-formed program followed by END. */
  lemma {:induction false} AcceptedIsProgram(toks: seq<Token>) returns (prog: Program)
    requires T.Analyze(toks).Ok?
    ensures ProgramOk(prog) && Written(toks, prog)
  {
    var cmds, e := SeqOf(toks, 0);
    AnalyzeParts(toks, e);
    prog := Program(cmds);
  }

  /** What analisar demands after the command sequence: END, and nothing after it. */
  lemma {:induction false} AnalyzeParts(toks: seq<Token>, e: nat)
    requires T.Analyze(toks).Ok? && T.CommandSequence(toks, 0) == Ok(e)
    ensures e + 1 == |toks| && At(toks, e, T.EndKw)
  {
    assert T.Program(toks) == T.Expect(toks, e, T.EndKw);
  }

  /** What the command sequence accepts is well-formed commands separated by `;`. */
  lemma {:induction false} SeqOf(toks: seq<Token>, p: nat) returns (cmds: seq<Cmd>, e: nat)
    requires p <= |toks| && T.CommandSequence(toks, p).Ok?
    ensures SeqParsed(toks, p, cmds, e) && T.CommandSequence(toks, p) == Ok(e)
    decreases |toks| - p
  {
    var c, q := WrappedOf(toks, p);
    if At(toks, q, Semi) {
      SeqStepOf(toks, p, q);
      var rest;
      rest, e := SeqOf(toks, q + 1);
      cmds := SeqParsedCons(toks, p, c, q, rest, e);
    } else {
      SeqEndStepOf(toks, p, q);
      e := q;
      cmds := SeqParsedOne(toks, p, c, q);
    }
  }

  /** After `;` the command sequence goes on as a command sequence of its own, not at END. */
  lemma {:induction false} SeqStepOf(toks: seq<Token>, p: nat, q: nat)
    requires p <= q < |toks| && T.CommandSequence(toks, p).Ok? && T.Wrapped(toks, p) == Ok(q) && At(toks, q, Semi)
    ensures !At(toks, q + 1, T.EndKw) && T.CommandSequence(toks, q + 1).Ok?
    ensures T.CommandSequence(toks, p) == T.CommandSequence(toks, q + 1)
  {
    assert T.CommandSequence(toks, p) == T.SequenceLoop(toks, q);
  }

  /** Without `;` the command sequence ends after its command. */
  lemma {:induction false} SeqEndStepOf(toks: seq<Token>, p: nat, q: nat)
    requires p <= q <= |toks| && T.Wrapped(toks, p) == Ok(q) && !At(toks, q, Semi)
    ensures T.CommandSequence(toks, p) == Ok(q)
  {
    assert T.SequenceLoop(toks, q) == Ok(q);
  }

  lemma {:induction false} SeqParsedCons(toks: seq<Token>, p: nat, c: Cmd, q: nat, rest: seq<Cmd>, e: nat)
    returns (cmds: seq<Cmd>)
    requires Parsed(toks, p, c, q) && At(toks, q, Semi) && !At(toks, q + 1, T.EndKw) && SeqParsed(toks, q + 1, rest, e)
    ensures SeqParsed(toks, p, cmds, e)
  {
    cmds := SeqCons(toks, p, c, q, rest);
    assert cmds[|cmds| - 1] == rest[|rest| - 1];
    if |rest| == 1 && rest[0] == Empty {
      assert e == q + 1;
    }
  }

  lemma {:induction false} SeqParsedOne(toks: seq<Token>, p: nat, c: Cmd, q: nat) returns (cmds: seq<Cmd>)
    requires Parsed(toks, p, c, q) && !At(toks, q, Semi)
    ensures SeqParsed(toks, p, cmds, q)
  {
    cmds := [c];
  }

  /** What the label wrapper accepts is a well-formed command with at most one label. */
  lemma {:induction false} WrappedOf(toks: seq<Token>, p: nat) returns (c: Cmd, q: nat)
    requires p <= |toks| && T.Wrapped(toks, p).Ok?
    ensures Parsed(toks, p, c, q) && T.Wrapped(toks, p) == Ok(q)
    decreases |toks| - p, 2
  {
    if T.LabelAt(toks, p) {
      var b;
      b, q := BareOf(toks, p + 2);
      c := Labelled(toks[p], b);
    } else {
      c, q := BareOf(toks, p);
    }
  }

  /** What the command rule accepts is a well-formed command without a label. */
  lemma {:induction false} BareOf(toks: seq<Token>, p: nat) returns (c: Cmd, q: nat)
    requires p <= |toks| && T.Command(toks, p).Ok?
    ensures BareParsed(toks, p, c, q) && T.Command(toks, p) == Ok(q)
    decreases |toks| - p, 1
  {
    var k := toks[p].kind;
    if k == T.LetKw {
      c, q := LetOf(toks, p);
    } else if k == T.GoKw {
      c, q := JumpOf(toks, p);
    } else if k == T.ReadKw {
      c, q := ReadOf(toks, p);
    } else if k == T.PrintKw {
      c, q := PrintOf(toks, p);
    } else if k == T.IfKw {
      c, q := IfOf(toks, p);
    } else {
      c, q := Empty, p;
    }
  }

  lemma {:induction false} LetOf(toks: seq<Token>, p: nat) returns (c: Cmd, q: nat)
    requires At(toks, p, T.LetKw) && T.Command(toks, p).Ok?
    ensures BareParsed(toks, p, c, q) && T.Command(toks, p) == Ok(q)
  {
    assert T.Command(toks, p) == T.Assignment(toks, p);
    var e := SumOf(toks, p + 3);
    c := Let(toks[p + 1], e);
    q := p + 3 + |SumTokens(e)|;
  }

  /** GO TO l, or GO TO l OF and a non-empty list of labels. */
  lemma {:induction false} JumpOf(toks: seq<Token>, p: nat) returns (c: Cmd, q: nat)
    requires At(toks, p, T.GoKw) && T.Command(toks, p).Ok?
    ensures BareParsed(toks, p, c, q) && T.Command(toks, p) == Ok(q)
  {
    assert T.Command(toks, p) == T.Jump(toks, p);
    if At(toks, p + 3, T.OfKw) {
      var more := TLabelsOf(toks, p + 5);
      var ls := NamesCons(toks, p + 4, more);
      c := ComputedJump(toks[p + 2], ls);
      q := p + 4 + NamesWidth(ls);
    } else {
      c := Jump(toks[p + 2]);
      q := p + 3;
    }
  }

  /** What READ accepts is a list of identifiers, possibly empty. */
  lemma {:induction false} ReadOf(toks: seq<Token>, p: nat) returns (c: Cmd, q: nat)
    requires At(toks, p, T.ReadKw) && T.Command(toks, p).Ok?
    ensures BareParsed(toks, p, c, q) && T.Command(toks, p) == Ok(q)
  {
    assert T.Command(toks, p) == T.IdentifierList(toks, p + 1);
    var ns;
    if At(toks, p + 1, Identifier) {
      var more := TNamesOf(toks, p + 2);
      ns := NamesCons(toks, p + 1, more);
    } else {
      ns := [];
    }
    c := Read(ns);
    q := p + 1 + NamesWidth(ns);
  }

  lemma {:induction false} PrintOf(toks: seq<Token>, p: nat) returns (c: Cmd, q: nat)
    requires At(toks, p, T.PrintKw) && T.Command(toks, p).Ok?
    ensures BareParsed(toks, p, c, q) && T.Command(toks, p) == Ok(q)
  {
    assert T.Command(toks, p) == T.ExpressionList(toks, p + 1);
    var es := ExprsOf(toks, p + 1);
    c := Print(es);
    q := p + 1 + ExprsWidth(es);
  }

  /** What _analisar_decisao accepts is a well-formed IF. */
  lemma {:induction false} IfOf(toks: seq<Token>, p: nat) returns (c: Cmd, q: nat)
    requires At(toks, p, T.IfKw) && T.Command(toks, p).Ok?
    ensures BareParsed(toks, p, c, q) && T.Command(toks, p) == Ok(q)
    decreases |toks| - p, 0
  {
    var p4 := DecisionParts(toks, p);
    var c1, p6, c2;
    c1, p6, c2, q := BranchesOf(toks, p4 + 1);
    var a, p2, b := ComparisonOf(toks, p + 1);
    c := IfBuilt(toks, p, a, p2, b, p4, c1, p6, c2, q);
  }

  /** What the rest of _analisar_decisao accepts: a command, ELSE, and a command. */
  lemma {:induction false} BranchesOf(toks: seq<Token>, t: nat) returns (c1: Cmd, p6: nat, c2: Cmd, q: nat)
    requires t <= |toks| && T.Branches(toks, t).Ok?
    ensures Parsed(toks, t, c1, p6) && At(toks, p6, T.ElseKw) && Parsed(toks, p6 + 1, c2, q)
    ensures T.Branches(toks, t) == Ok(q)
    decreases |toks| - t, 3
  {
    p6 := BranchesParts(toks, t);
    var q1;
    c1, q1 := WrappedOf(toks, t);
    c2, q := WrappedOf(toks, p6 + 1);
  }

  /** What _analisar_decisao reads: a comparison ending at THEN at p4, then the branches. */
  lemma {:induction false} DecisionParts(toks: seq<Token>, p: nat) returns (p4: nat)
    requires At(toks, p, T.IfKw) && T.Command(toks, p).Ok?
    ensures p < p4 < |toks| && T.Comparison(toks, p + 1) == Ok(p4) && At(toks, p4, T.ThenKw)
    ensures T.Branches(toks, p4 + 1).Ok? && T.Command(toks, p) == T.Branches(toks, p4 + 1)
  {
    assert T.Command(toks, p) == T.Decision(toks, p);
    p4 := T.Comparison(toks, p + 1).pos;
  }

  /** What the rest of _analisar_decisao reads: a command ending at ELSE at p6, and a command. */
  lemma {:induction false} BranchesParts(toks: seq<Token>, p: nat) returns (p6: nat)
    requires p <= |toks| && T.Branches(toks, p).Ok?
    ensures p <= p6 < |toks| && T.Wrapped(toks, p) == Ok(p6) && At(toks, p6, T.ElseKw)
    ensures T.Wrapped(toks, p6 + 1).Ok? && T.Branches(toks, p) == T.Wrapped(toks, p6 + 1)
  {
    p6 := T.Wrapped(toks, p).pos;
  }

  /** An IF put together from parts read where they stand. */
  lemma {:induction false} IfBuilt(toks: seq<Token>, p: nat, a: Sum, p2: nat, b: Sum, p4: nat, c1: Cmd, p6: nat, c2: Cmd, q: nat)
    returns (c: Cmd)
    requires At(toks, p, T.IfKw) && SumOk(a) && Reads(toks, p + 1, SumTokens(a)) && p2 == p + 1 + |SumTokens(a)|
    requires p2 < |toks| && IsRel(toks[p2]) && SumOk(b) && Reads(toks, p2 + 1, SumTokens(b)) && p4 == p2 + 1 + |SumTokens(b)|
    requires At(toks, p4, T.ThenKw) && Parsed(toks, p4 + 1, c1, p6) && At(toks, p6, T.ElseKw) && Parsed(toks, p6 + 1, c2, q)
    ensures c == If(a, toks[p2], b, c1, c2) && BareParsed(toks, p, c, q)
  {
    c := If(a, toks[p2], b, c1, c2);
    assert RelPos(p, c) == p2 && ThenPos(p, c) == p4 && ElsePos(p, c) == p6;
  }

  /** analisar accepts a token list exactly when it is a well-formed program
      followed by END. */
  lemma {:induction false} AcceptsExactlyPrograms(toks: seq<Token>)
    ensures T.Analyze(toks).Ok? <==> exists prog :: ProgramOk(prog) && Written(toks, prog)
  {
    if T.Analyze(toks).Ok? {
      var prog := AcceptedIsProgram(toks);
    }
    if exists prog :: ProgramOk(prog) && Written(toks, prog) {
      var prog :| ProgramOk(prog) && Written(toks, prog);
      ProgramAccepted(toks, prog);
    }
  }
}
