/** One input line from tokens to result: finsh_run_line over the parser, the
    compiler and the machine. */
module FinshShell {
  import opened Basics
  import opened FinshOperators
  import opened FinshMachine
  import opened FinshSyntax
  import opened FinshCompiler
  import opened FinshCorrect
  import opened FinshNodes
  import opened FinshParser
  import opened FinshReader
  import opened FinshRejects
  import opened FinshTokens
  import opened FinshEmpty

  datatype Outcome = ParseError(err: nat) | CompileError | Undefined | Done(final: State)

  /** What a line does, composed from the specifications of its three stages. */
  function LineOutcome(toks: seq<Token>, env: Env, m: Memory, sys: Syscall): Outcome
    requires LineFits(toks, env)
  {
    var p := ParseProgram(toks, env, START, false);
    var t := Annotate(p.t, false);
    if p.s.err != ERR_OK then ParseError(p.s.err)
    else if AnyRejected(t) then CompileError
    else
      var r := Exec(Segment(ProgramCode(t)), State(0, [], m), sys);
      if r.None? then Undefined else Done(r.value)
  }

  /** The emitted code, if there is any, fits the text segment; the source does not check. */
  predicate LineFits(toks: seq<Token>, env: Env) {
    var p := ParseProgram(toks, env, START, false);
    p.s.err == ERR_OK ==> |ProgramCode(Annotate(p.t, false))| <= TEXT_MAX
  }

  /** A node over its operands is rejected only for itself or for one of them. */
  lemma OverRejected(k: Kind, t: Tree, s: Tree, addr: bool)
    requires t.Node? && t.sibling == Nil && !k.KUnknown?
    requires !AnyRejected(Annotate(t, ChildAddr(k, addr))) && !AnyRejected(Annotate(s, false))
    requires k.KAssign? ==> Annotate(t, true).data.dtype == DATA_DWORD
    ensures !AnyRejected(Annotate(Over(k, t, s), addr))
  {
  }

  lemma {:induction false} NothingRejected(e: Expr, env: Env, addr: bool)
    requires WellFormed(e, env)
    ensures !AnyRejected(Annotate(Lower(e, env), addr))
    decreases e, 1
  {
    match e
    case Lit(_, _) =>
    case Name(_) =>
    case Call(f, args) =>
      NoArgumentRejected(args, env);
      OverRejected(KFunc, IdNode(SymbolOf(env, f)), LowerArgs(args, env), addr);
    case _ =>
      hide AnyRejected, Annotate;
      OperatorAccepted(e, env, addr);
  }

  lemma {:induction false} OperatorAccepted(e: Expr, env: Env, addr: bool)
    requires WellFormed(e, env) && !e.Lit? && !e.Name? && !e.Call?
    ensures !AnyRejected(Annotate(Lower(e, env), addr))
    decreases e, 0
  {
    hide AnyRejected, Annotate;
    match e
    case Neg(x) =>
      NothingRejected(x, env, false);
      ZeroAccepted(addr);
      OverRejected(KBin(Sub), Node(Blank(KLit(LongLit)), Nil, Nil), Lower(x, env), addr);
    case BitNot(x) => OneOperand(KBitwise, x, env, addr);
    case Deref(x) => OneOperand(KGetValue, x, env, addr);
    case AddrOf(x) => OneOperand(KGetAddr, x, env, addr);
    case Incr(op, x) => OneOperand(KStep(op), x, env, addr);
    case Bin(op, x, y) =>
      NothingRejected(x, env, addr);
      NothingRejected(y, env, false);
      OverRejected(KBin(op), Lower(x, env), Lower(y, env), addr);
    case Assign(x, y) =>
      NothingRejected(x, env, true);
      NothingRejected(y, env, false);
      HeadIsType(x, env, true);
      OverRejected(KAssign, Lower(x, env), Lower(y, env), addr);
  }

  lemma ZeroAccepted(addr: bool)
    ensures !AnyRejected(Annotate(Node(Blank(KLit(LongLit)), Nil, Nil), addr))
  {
  }

  lemma {:induction false} OneOperand(k: Kind, x: Expr, env: Env, addr: bool)
    requires WellFormed(x, env) && !k.KUnknown? && !k.KAssign?
    ensures !AnyRejected(Annotate(Over(k, Lower(x, env), Nil), addr))
    decreases x, 2
  {
    NothingRejected(x, env, ChildAddr(k, addr));
    OverRejected(k, Lower(x, env), Nil, addr);
  }

  lemma {:induction false} NoArgumentRejected(args: Args, env: Env)
    requires WellFormedArgs(args, env)
    ensures !AnyRejected(Annotate(LowerArgs(args, env), false))
    decreases args
  {
    match args
    case End =>
    case More(e, t) => NothingRejected(e, env, false); NoArgumentRejected(t, env);
  }

  lemma {:induction false} NoStatementRejected(stmts: seq<Expr>, env: Env)
    requires AllWellFormed(stmts, env)
    ensures !AnyRejected(Annotate(LowerAll(stmts, env), false))
    decreases |stmts|
  {
    if |stmts| > 0 {
      NothingRejected(stmts[0], env, false);
      NoStatementRejected(stmts[1..], env);
    }
  }

  /** The whole shell on one line. Take any non-empty list of statements that need
      no parentheses, are well-formed, fit sixteen nodes and 128 bytes of code.
      Parsing the tokens of that list, checking, compiling and running gives the
      value and the memory of evaluating the statements directly, and is undefined
      exactly when that is. */
  lemma LineCorrect(stmts: seq<Expr>, env: Env, m: Memory, sys: Syscall)
    requires |stmts| > 0 && AllFit(stmts, env) && AllWellFormed(stmts, env)
    requires NodesOfAll(stmts) <= FinshParser.NODE_MAX && |CodeOf(stmts, env)| <= TEXT_MAX
    ensures LineFits(LinearAll(stmts), env)
    ensures LineOutcome(LinearAll(stmts), env, m, sys)
            == match EvalAll(stmts, env, m, sys)
               case None => Undefined
               case Some(r) => Done(State(TEXT_MAX, [r.v], r.mem))
  {
    hide Exec, ParseProgram, ProgramCode, Annotate, LowerAll, EvalAll, Segment;
    var toks := LinearAll(stmts);
    assert toks[0..|toks|] == toks;
    ProgramDone(stmts, toks, env, START, false);
    ParsedCorrect(toks, stmts, env, m, sys);
  }

  /** The two stages behind the parser. */
  lemma ParsedCorrect(toks: seq<Token>, stmts: seq<Expr>, env: Env, m: Memory, sys: Syscall)
    requires |stmts| > 0 && AllFit(stmts, env) && AllWellFormed(stmts, env) && |CodeOf(stmts, env)| <= TEXT_MAX
    requires var p := ParseProgram(toks, env, START, false);
             p.s.err == ERR_OK && Plain(p.t) == Plain(LowerAll(stmts, env))
    ensures LineFits(toks, env)
    ensures LineOutcome(toks, env, m, sys)
            == match EvalAll(stmts, env, m, sys)
               case None => Undefined
               case Some(r) => Done(State(TEXT_MAX, [r.v], r.mem))
  {
    hide Exec, ParseProgram, ProgramCode, Annotate, LowerAll, EvalAll, Segment;
    var p, t := ParseProgram(toks, env, START, false), LowerAll(stmts, env);
    PlainStages(p.t);
    PlainStages(t);
    NoStatementRejected(stmts, env);
    CompilerCorrect(stmts, env, m, sys);
  }

  /** The compiler does not look at the kinds of literals. */
  lemma PlainStages(t: Tree)
    ensures ProgramCode(Annotate(Plain(t), false)) == ProgramCode(Annotate(t, false))
    ensures AnyRejected(Annotate(Plain(t), false)) == AnyRejected(Annotate(t, false))
  {
    AnnotatePlain(t, false);
    PlainCode(Annotate(t, false));
    PlainProgram(Annotate(t, false));
  }

  lemma {:induction false} AnnotatePlain(t: Tree, addr: bool)
    ensures Annotate(Plain(t), addr) == Plain(Annotate(t, addr))
  {
    if t.Node? {
      AnnotatePlain(t.child, ChildAddr(t.data.kind, addr));
      AnnotatePlain(t.sibling, false);
    }
  }

  lemma {:induction false} PlainCode(t: Tree)
    ensures Code(Plain(t)) == Code(t) && AnyRejected(Plain(t)) == AnyRejected(t) && Siblings(Plain(t)) == Siblings(t)
  {
    if t.Node? {
      PlainCode(t.child);
      PlainCode(t.sibling);
      if t.child.Node? { PlainCode(t.child.sibling); }
      assert OwnCode(PlainData(t.data), Plain(t.child)) == OwnCode(t.data, t.child);
    }
  }

  lemma {:induction false} PlainProgram(t: Tree)
    ensures ProgramCode(Plain(t)) == ProgramCode(t)
  {
    if t.Node? {
      PlainProgram(t.sibling);
      PlainCode(WithSibling(t, Nil));
      assert Plain(WithSibling(t, Nil)) == WithSibling(Plain(t), Nil);
    }
  }

  /** The same for a line with empty statements in it that do no harm. */
  lemma HarmlessLineCorrect(items: Items, env: Env, m: Memory, sys: Syscall)
    requires Harmless(items, false) && ItemsFit(items, env)
    requires var stmts := Statements(items);
             |stmts| > 0 && AllWellFormed(stmts, env) && NodesOfAll(stmts) <= FinshParser.NODE_MAX
             && |CodeOf(stmts, env)| <= TEXT_MAX
    ensures LineFits(LinearItems(items), env)
    ensures LineOutcome(LinearItems(items), env, m, sys)
            == match EvalAll(Statements(items), env, m, sys)
               case None => Undefined
               case Some(r) => Done(State(TEXT_MAX, [r.v], r.mem))
  {
    hide Exec, ParseProgram, ProgramCode, Annotate, LowerAll, EvalAll, Segment, Statements, LinearItems, Harmless;
    EmptyStatementsIff(items, LinearItems(items), env);
    StatementsFit(items, env);
    ParsedCorrect(LinearItems(items), Statements(items), env, m, sys);
  }

  lemma {:induction false} StatementsFit(items: Items, env: Env)
    requires ItemsFit(items, env)
    ensures AllFit(Statements(items), env)
  {
    hide Fits;
    if |items| > 0 {
      StatementsFit(items[1..], env);
    }
  }

  /** A line with a parenthesis that groups is answered with a parse error, and nothing
      runs. */
  lemma GroupingRejected(toks: seq<Token>, env: Env, m: Memory, sys: Syscall, i: nat)
    requires i < |toks| && toks[i].TLeftParen? && Reached(toks, 0, i) && !Excused(toks, i)
    ensures LineFits(toks, env) && LineOutcome(toks, env, m, sys).ParseError?
  {
    hide Exec, ParseProgram, ProgramCode, Annotate, Segment;
    ParenthesesRejected(toks, env, i);
  }

  // ------------------------------------------------------------------ in place

  /** The first part of finsh_compiler_run: memset of the text segment. */
  method Clear(text: array<Byte>)
    modifies text
    ensures forall i :: 0 <= i < text.Length ==> text[i] == OP_NOOP
  {
    var i := 0;
    while i < text.Length
      invariant 0 <= i <= text.Length && forall j :: 0 <= j < i ==> text[j] == OP_NOOP
    {
      text[i] := OP_NOOP;
      i := i + 1;
    }
  }

  /** finsh_compiler_run: type check, then one statement after the other, each cut
      from its siblings, with a POP between two. */
  method CompilerRun(tab: array<Slot>, e: Emitter, root: int, ghost t: Tree)
    requires tab as object != e.text && e.text.Length == TEXT_MAX && e.pc == 0 && !e.failed
    requires Rep(tab[..], root, t) && |ProgramCode(Annotate(t, false))| <= TEXT_MAX
    modifies tab, e, e.text
    ensures e.text[..] == Segment(ProgramCode(Annotate(t, false)))
    ensures e.failed == AnyRejected(Annotate(t, false))
  {
    hide Code, ProgramCode, AnyRejected, Annotate, Segment;
    EmptyProgram();
    TypeCheck(tab, root, false, t);
    Clear(e.text);
    ghost var zeros := e.text[..];
    ghost var all, rest, done := Annotate(t, false), Annotate(t, false), [];
    var sibling := root;
    while sibling != -1
      invariant Rep(tab[..], sibling, rest)
      invariant e.Wrote(zeros, 0, done) && e.text.Length == TEXT_MAX
      invariant done + ProgramCode(rest) == ProgramCode(all)
      invariant (e.failed || AnyRejected(rest)) == AnyRejected(all)
      decreases rest
    {
      ghost var one, last := Code(WithSibling(rest, Nil)), rest.sibling.Nil?;
      StatementSplit(rest);
      sibling := CompileStatement(tab, e, sibling, zeros, done, rest);
      ghost var pop: seq<Byte> := if last then [] else [OP_POP];
      Reassociate(done, one, pop, ProgramCode(rest.sibling));
      done := done + one + pop;
      rest := rest.sibling;
    }
    assert done == ProgramCode(all);
    SegmentOf(zeros, e.text[..], done);
  }

  lemma Reassociate(a: seq<Byte>, b: seq<Byte>, c: seq<Byte>, d: seq<Byte>)
    ensures a + b + c + d == a + (b + (c + d))
  {
  }

  lemma EmptyProgram()
    ensures ProgramCode(Nil) == [] && !AnyRejected(Nil)
  {
  }

  lemma SegmentOf(zeros: seq<Byte>, text: seq<Byte>, code: seq<Byte>)
    requires |zeros| == TEXT_MAX && |code| <= TEXT_MAX && text == zeros[..0] + code + zeros[|code|..]
    requires forall i :: 0 <= i < TEXT_MAX ==> zeros[i] == OP_NOOP
    ensures text == Segment(code)
  {
  }

  /** The body of that loop. */
  method CompileStatement(tab: array<Slot>, e: Emitter, current: int,
                          ghost zeros: seq<Byte>, ghost done: seq<Byte>, ghost rest: Tree) returns (sibling: int)
    requires tab as object != e.text && e.text.Length == TEXT_MAX && rest.Node? && Rep(tab[..], current, rest)
    requires e.Wrote(zeros, 0, done)
    requires |done| + |Code(WithSibling(rest, Nil))| + (if rest.sibling.Nil? then 0 else 1) <= TEXT_MAX
    modifies tab, e`pc, e`failed, e.text
    ensures Rep(tab[..], sibling, rest.sibling)
    ensures e.Wrote(zeros, 0, done + Code(WithSibling(rest, Nil)) + if rest.sibling.Nil? then [] else [OP_POP])
    ensures e.failed == (old(e.failed) || AnyRejected(WithSibling(rest, Nil)))
  {
    ghost var one, tab0 := WithSibling(rest, Nil), tab[..];
    sibling := tab[current].sibling;
    tab[current] := tab[current].(sibling := -1);
    Cut(tab0, tab[..], current, rest);
    assert sibling == -1 <==> rest.sibling.Nil?;
    hide Code, Rep, AnyRejected;
    ghost var t1 := e.text[..];
    e.Compile(tab, current, one);
    e.Append(zeros, 0, done, t1, Code(one));
    if sibling != -1 {
      ghost var t2 := e.text[..];
      e.CodeByte(OP_POP);
      e.Append(zeros, 0, done + Code(one), t2, [OP_POP]);
    } else {
      assert done + Code(one) + [] == done + Code(one);
    }
  }

  lemma StatementSplit(t: Tree)
    requires t.Node?
    ensures ProgramCode(t)
            == Code(WithSibling(t, Nil)) + ((if t.sibling.Nil? then [] else [OP_POP]) + ProgramCode(t.sibling))
    ensures AnyRejected(t) == (AnyRejected(WithSibling(t, Nil)) || AnyRejected(t.sibling))
  {
  }

  /** Cutting a node from its siblings leaves two separate images. */
  lemma Cut(tab: seq<Slot>, tab': seq<Slot>, i: int, t: Tree)
    requires t.Node? && Rep(tab, i, t) && |tab'| == |tab|
    requires tab' == tab[i := tab[i].(sibling := -1)]
    ensures Rep(tab', i, WithSibling(t, Nil)) && Rep(tab', tab[i].sibling, t.sibling)
  {
    Frame(tab, tab', tab[i].child, t.child);
    Frame(tab, tab', tab[i].sibling, t.sibling);
  }

  /** finsh_run_line. */
  method RunLine(toks: seq<Token>, env: Env, m: Memory, sys: Syscall) returns (r: Outcome)
    requires LineFits(toks, env)
    ensures r == LineOutcome(toks, env, m, sys)
  {
    hide Exec, ParseProgram, ProgramCode, Annotate, Segment;
    var table := new Slot[FinshParser.NODE_MAX](_ => Empty);
    var reader := new Reader(toks, env, table);
    var root := reader.ParserRun();
    ghost var p := ParseProgram(toks, env, START, false);
    if reader.errno != ERR_OK {
      return ParseError(reader.errno);
    }
    var vm := new Vm(m);
    var emitter := new Emitter(vm.text);
    CompilerRun(table, emitter, root, p.t);
    if emitter.failed {
      return CompileError;
    }
    var ok := vm.Run(sys);
    if !ok {
      return Undefined;
    }
    return Done(State(vm.pc, vm.stack[..vm.sp], vm.mem));
  }
}
