/** Which lines are refused, and what short lines of literals and operators answer, in the
    shell's tokens and in C's rules for 32-bit longs alone. */
module FinshLines {
  import opened Basics
  import opened FinshOperators
  import opened FinshMachine
  import opened FinshSyntax
  import opened FinshCompiler
  import opened FinshCorrect
  import opened FinshParser
  import opened FinshRejects
  import opened FinshLimits
  import opened FinshShell

  /** The operator a token writes between two operands. */
  predicate Writes(t: Token, o: BinOp) {
    match t
    case TMul => o == Mul
    case TDiv => o == Div
    case TMod => o == Mod
    case TAdd => o == Add
    case TSub => o == Sub
    case TShl => o == Shl
    case TShr => o == Shr
    case TAnd => o == And
    case TXor => o == Xor
    case TOr => o == Or
    case _ => false
  }

  /** C's precedence of those operators. */
  function Strength(t: Token): nat {
    if t in {TMul, TDiv, TMod} then 6
    else if t in {TAdd, TSub} then 5
    else if t in {TShl, TShr} then 4
    else if t == TAnd then 3
    else if t == TXor then 2
    else 1
  }

  /** The answer to a line: one word on the stack and the memory as it was, exactly if the
      operation is defined. */
  ghost predicate Answers(out: Outcome, o: BinOp, a: Word, b: Word, m: Memory) {
    if Defined(o, a, b) then
      out.Done? && out.final.mem == m && |out.final.stack| == 1 && Computes(o, a, b, out.final.stack[0])
    else out.Undefined?
  }

  lemma OneStatement(e: Expr, env: Env, m: Memory, sys: Syscall)
    requires Fits(e, env) && WellFormed(e, env)
    requires Nodes(e) <= FinshParser.NODE_MAX && |ValueCode(e, env)| <= TEXT_MAX
    ensures LineFits(Linear(e) + [TSemicolon], env)
    ensures LineOutcome(Linear(e) + [TSemicolon], env, m, sys)
            == match Eval(e, env, m, sys)
               case None => Undefined
               case Some(r) => Done(State(TEXT_MAX, [r.v], r.mem))
  {
    hide Fits, WellFormed, Nodes, ValueCode, Eval, LineOutcome, LineFits, CodeOf, Linear;
    CodeOfStatements([e], env);
    assert NodesOfAll([e]) == Nodes(e) && LinearAll([e]) == Linear(e) + [TSemicolon] by {
      assert [e][1..] == [];
    }
    LineCorrect([e], env, m, sys);
  }

  /** What the lines below need of an operand. */
  predicate Simple(e: Expr, env: Env, nodes: nat) {
    Fits(e, env) && WellFormed(e, env) && Head(e, env) == DATA_DWORD && Nodes(e) <= nodes
    && |ValueCode(e, env)| <= 6 * nodes
  }

  lemma LitSimple(v: Word, env: Env)
    ensures Simple(Lit(LongLit, v), env, 1)
  {
    CodeOfLit(LongLit, v, env);
  }

  lemma BinSimple(o: BinOp, x: Expr, y: Expr, env: Env, n: nat, k: nat)
    requires Simple(x, env, n) && Simple(y, env, k) && Level(x) >= LevelOf(o) && Level(y) > LevelOf(o)
    ensures Simple(Bin(o, x, y), env, n + k + 1)
  {
    hide ValueCode;
    CodeOfBin(o, x, y, env);
  }

  /** A line that is one operator expression. */
  lemma OperatorLine(o: BinOp, x: Expr, y: Expr, env: Env, m: Memory, sys: Syscall, v: Word, w: Word)
    requires Simple(x, env, 3) && Simple(y, env, 3) && Level(x) >= LevelOf(o) && Level(y) > LevelOf(o)
    requires Eval(x, env, m, sys) in {None, Some(Value(v, m))} && Eval(y, env, m, sys) in {None, Some(Value(w, m))}
    ensures var toks := Linear(Bin(o, x, y)) + [TSemicolon];
            LineFits(toks, env)
            && if Eval(x, env, m, sys).None? || Eval(y, env, m, sys).None?
               then LineOutcome(toks, env, m, sys).Undefined?
               else Answers(LineOutcome(toks, env, m, sys), o, v, w, m)
  {
    BinSimple(o, x, y, env, 3, 3);
    hide Fits, WellFormed, Nodes, ValueCode, Eval, LineOutcome, LineFits, Linear, Computes, Defined;
    OneStatement(Bin(o, x, y), env, m, sys);
    EvalBin(o, x, y, env, m, sys);
  }

  lemma OperatorOf(t: Token, o: BinOp)
    requires Writes(t, o)
    ensures OpToken(o) == t && LevelOf(o) == Strength(t)
  {
  }

  /** A line of two literals with an operator between them, like 6&3; */
  lemma TwoOperands(a: Word, t: Token, b: Word, o: BinOp, env: Env, m: Memory, sys: Syscall)
    requires Writes(t, o)
    ensures var toks := [TLit(LongLit, a), t, TLit(LongLit, b), TSemicolon];
            LineFits(toks, env) && Answers(LineOutcome(toks, env, m, sys), o, a, b, m)
  {
    hide LineOutcome, LineFits, Computes, Defined, Answers, ValueCode, WellFormed, Fits;
    var x, y := Lit(LongLit, a), Lit(LongLit, b);
    OperatorOf(t, o);
    LitSimple(a, env);
    LitSimple(b, env);
    OperatorLine(o, x, y, env, m, sys, a, b);
    assert Linear(Bin(o, x, y)) + [TSemicolon] == [TLit(LongLit, a), t, TLit(LongLit, b), TSemicolon];
  }

  lemma BinValue(o: BinOp, a: Word, b: Word, env: Env, m: Memory, sys: Syscall, w: Word)
    requires Defined(o, a, b) ==> Computes(o, a, b, w)
    ensures Eval(Bin(o, Lit(LongLit, a), Lit(LongLit, b)), env, m, sys)
            == if Defined(o, a, b) then Some(Value(w, m)) else None
  {
    hide Apply, Computes, Defined;
    ApplyComputes(o, a, b);
    if Defined(o, a, b) { ComputesOnce(o, a, b, w, Apply(o, a, b).value); }
  }

  lemma Flat(o: BinOp, x: Expr, y: Expr)
    ensures Linear(Bin(o, x, y)) == Linear(x) + [OpToken(o)] + Linear(y)
  {
  }

  lemma Leftward(o1: BinOp, o2: BinOp, a: Word, b: Word, c: Word, env: Env, m: Memory, sys: Syscall, w: Word)
    requires LevelOf(o1) >= LevelOf(o2) && (Defined(o1, a, b) ==> Computes(o1, a, b, w))
    ensures var toks := [TLit(LongLit, a), OpToken(o1), TLit(LongLit, b), OpToken(o2), TLit(LongLit, c), TSemicolon];
            LineFits(toks, env)
            && if Defined(o1, a, b) then Answers(LineOutcome(toks, env, m, sys), o2, w, c, m)
               else LineOutcome(toks, env, m, sys).Undefined?
  {
    hide LineOutcome, LineFits, Computes, Defined, Answers, ValueCode, WellFormed, Fits;
    var x, y, z := Lit(LongLit, a), Lit(LongLit, b), Lit(LongLit, c);
    LitSimple(a, env);
    LitSimple(b, env);
    LitSimple(c, env);
    BinSimple(o1, x, y, env, 1, 1);
    BinValue(o1, a, b, env, m, sys, w);
    OperatorLine(o2, Bin(o1, x, y), z, env, m, sys, w, c);
    Flat(o1, x, y);
    Flat(o2, Bin(o1, x, y), z);
    assert Linear(Bin(o2, Bin(o1, x, y), z)) + [TSemicolon]
           == [TLit(LongLit, a), OpToken(o1), TLit(LongLit, b), OpToken(o2), TLit(LongLit, c), TSemicolon];
  }

  lemma Rightward(o1: BinOp, o2: BinOp, a: Word, b: Word, c: Word, env: Env, m: Memory, sys: Syscall, w: Word)
    requires LevelOf(o1) < LevelOf(o2) && (Defined(o2, b, c) ==> Computes(o2, b, c, w))
    ensures var toks := [TLit(LongLit, a), OpToken(o1), TLit(LongLit, b), OpToken(o2), TLit(LongLit, c), TSemicolon];
            LineFits(toks, env)
            && if Defined(o2, b, c) then Answers(LineOutcome(toks, env, m, sys), o1, a, w, m)
               else LineOutcome(toks, env, m, sys).Undefined?
  {
    hide LineOutcome, LineFits, Computes, Defined, Answers, ValueCode, WellFormed, Fits;
    var x, y, z := Lit(LongLit, a), Lit(LongLit, b), Lit(LongLit, c);
    LitSimple(a, env);
    LitSimple(b, env);
    LitSimple(c, env);
    BinSimple(o2, y, z, env, 1, 1);
    BinValue(o2, b, c, env, m, sys, w);
    OperatorLine(o1, x, Bin(o2, y, z), env, m, sys, a, w);
    Flat(o2, y, z);
    Flat(o1, x, Bin(o2, y, z));
    assert Linear(Bin(o1, x, Bin(o2, y, z))) + [TSemicolon]
           == [TLit(LongLit, a), OpToken(o1), TLit(LongLit, b), OpToken(o2), TLit(LongLit, c), TSemicolon];
  }

  /** A line of three literals: the tighter operator is applied first, and of two equally
      tight ones the left one. w is the value of the first operation. */
  lemma ThreeOperands(a: Word, t1: Token, b: Word, t2: Token, c: Word, o1: BinOp, o2: BinOp,
                      env: Env, m: Memory, sys: Syscall, w: Word)
    requires Writes(t1, o1) && Writes(t2, o2)
    requires if Strength(t1) >= Strength(t2) then Defined(o1, a, b) ==> Computes(o1, a, b, w)
             else Defined(o2, b, c) ==> Computes(o2, b, c, w)
    ensures var toks := [TLit(LongLit, a), t1, TLit(LongLit, b), t2, TLit(LongLit, c), TSemicolon];
            LineFits(toks, env)
            && var out := LineOutcome(toks, env, m, sys);
               if Strength(t1) >= Strength(t2) then
                 if Defined(o1, a, b) then Answers(out, o2, w, c, m) else out.Undefined?
               else if Defined(o2, b, c) then Answers(out, o1, a, w, m)
               else out.Undefined?
  {
    hide LineOutcome, LineFits, Answers, Computes, Defined, Writes, Strength, LevelOf, OpToken;
    OperatorOf(t1, o1);
    OperatorOf(t2, o2);
    if Strength(t1) >= Strength(t2) {
      Leftward(o1, o2, a, b, c, env, m, sys, w);
    } else {
      Rightward(o1, o2, a, b, c, env, m, sys, w);
    }
  }

  /** A line with a name that has no symbol, or that needs more than sixteen nodes, is
      answered with a parse error, and nothing runs. */
  lemma LineRefused(stmts: seq<Expr>, all: Env, env: Env, m: Memory, sys: Syscall)
    requires AllFit(stmts, all) && !(AllFit(stmts, env) && NodesOfAll(stmts) <= FinshParser.NODE_MAX)
    ensures LineFits(LinearAll(stmts), env) && LineOutcome(LinearAll(stmts), env, m, sys).ParseError?
  {
    hide Exec, ParseProgram, ProgramCode, Annotate, Segment, AllFit, NodesOfAll, LinearAll;
    LineReadIff(stmts, all, env);
  }
}
