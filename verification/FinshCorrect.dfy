/** Compiler correctness: running the emitted bytes on the machine gives the
    value and the memory of direct evaluation, for every well-formed program
    whose code fits the text segment. */
module FinshCorrect {
  import opened Basics
  import opened FinshOperators
  import opened FinshMachine
  import opened FinshSyntax
  import opened FinshCompiler

  ghost predicate Sits(text: seq<Byte>, pc: nat, code: seq<Byte>) {
    pc + |code| <= |text| && text[pc..pc + |code|] == code
  }

  lemma SitsSplit(text: seq<Byte>, pc: nat, c: seq<Byte>, d: seq<Byte>)
    requires Sits(text, pc, c + d)
    ensures Sits(text, pc, c) && Sits(text, pc + |c|, d)
  {
    assert text[pc..pc + |c|] == (c + d)[..|c|];
    assert text[pc + |c|..pc + |c| + |d|] == (c + d)[|c|..];
  }

  /** Every push costs five bytes of text, so 128 bytes cannot overflow 64 slots. */
  ghost predicate Ready(text: seq<Byte>, s: State, code: seq<Byte>) {
    |text| == TEXT_MAX && Sits(text, s.pc, code) && 5 * |s.stack| <= s.pc
  }

  // ------------------------------------------------ one instruction at a time

  /** The four bytes behind an opcode are its operand. */
  lemma OperandIs(text: seq<Byte>, pc: nat, op: Byte, v: Word)
    requires Sits(text, pc, [op] + Bytes(v))
    ensures pc + 5 <= |text| && text[pc] == op && Operand(text, pc) == v
  {
    hide ByteOf, Join;
    JoinBytes(v);
    var c := text[pc..pc + 5];
    assert c == [op] + Bytes(v);
    assert text[pc] == c[0] && text[pc + 1] == c[1] && text[pc + 2] == c[2] && text[pc + 3] == c[3]
           && text[pc + 4] == c[4];
  }

  /** One turn of the loop. */
  lemma ExecStep(text: seq<Byte>, s: State, sys: Syscall)
    requires |text| == TEXT_MAX && s.pc < TEXT_MAX
    ensures Exec(text, s, sys) == match Step(text, s, sys) case None => None case Some(t) => Exec(text, t, sys)
  {
    hide Step;
  }

  lemma RunLd(text: seq<Byte>, s: State, v: Word, sys: Syscall)
    requires Ready(text, s, Ld(v))
    ensures Exec(text, s, sys) == Exec(text, State(s.pc + 5, s.stack + [v], s.mem), sys)
  {
    hide Apply, Load32, Store32, Complement, Bytes, Operand, Exec;
    OperandIs(text, s.pc, OP_LD_DWORD, v);
    ExecStep(text, s, sys);
  }

  lemma RunLdValue(text: seq<Byte>, s: State, a: Word, sys: Syscall)
    requires Ready(text, s, LdValue(a))
    ensures Exec(text, s, sys) == Exec(text, State(s.pc + 5, s.stack + [Load32(s.mem, a)], s.mem), sys)
  {
    hide Apply, Load32, Store32, Complement, Bytes, Operand, Exec;
    OperandIs(text, s.pc, OP_LD_VALUE_DWORD, a);
    ExecStep(text, s, sys);
  }

  lemma RunBin(text: seq<Byte>, s: State, op: BinOp, st: seq<Word>, a: Word, b: Word, sys: Syscall)
    requires |text| == TEXT_MAX && Sits(text, s.pc, [Opcode(op)]) && s.stack == st + [a, b]
    ensures Apply(op, a, b).None? ==> Exec(text, s, sys) == None
    ensures Apply(op, a, b).Some? ==>
              Exec(text, s, sys) == Exec(text, State(s.pc + 1, st + [Apply(op, a, b).value], s.mem), sys)
  {
    hide Apply, Load32, Store32, Complement, Join, Exec;
    ExecStep(text, s, sys);
    assert text[s.pc] == text[s.pc..s.pc + 1][0];
    assert s.stack[..|s.stack| - 2] == st;
  }

  lemma RunOp(text: seq<Byte>, s: State, op: Byte, st: seq<Word>, a: Word, sys: Syscall)
    requires |text| == TEXT_MAX && Sits(text, s.pc, [op]) && s.stack == st + [a]
    ensures op == OP_BITWISE_DWORD ==>
              Exec(text, s, sys) == Exec(text, State(s.pc + 1, st + [Complement(a)], s.mem), sys)
    ensures op == OP_LD_VALUE_DWORD_STACK ==>
              Exec(text, s, sys) == Exec(text, State(s.pc + 1, st + [Load32(s.mem, a)], s.mem), sys)
    ensures op == OP_POP ==> Exec(text, s, sys) == Exec(text, State(s.pc + 1, st, s.mem), sys)
  {
    hide Apply, Load32, Store32, Complement, Join, Exec;
    ExecStep(text, s, sys);
    assert text[s.pc] == text[s.pc..s.pc + 1][0];
    assert s.stack[..|s.stack| - 1] == st;
  }

  lemma RunStore(text: seq<Byte>, s: State, st: seq<Word>, a: Word, v: Word, sys: Syscall)
    requires |text| == TEXT_MAX && Sits(text, s.pc, [OP_ST_DWORD]) && s.stack == st + [a, v]
    ensures Exec(text, s, sys) == Exec(text, State(s.pc + 1, st + [a], Store32(s.mem, a, v)), sys)
  {
    hide Apply, Load32, Store32, Complement, Join, Exec;
    ExecStep(text, s, sys);
    assert text[s.pc] == text[s.pc..s.pc + 1][0];
    assert s.stack[..|s.stack| - 1] == st + [a];
  }

  lemma RunCall(text: seq<Byte>, s: State, n: nat, st: seq<Word>, f: Word, vs: seq<Word>, sys: Syscall)
    requires |text| == TEXT_MAX && |vs| == n <= CALL_MAX && s.stack == st + [f] + vs
    requires Sits(text, s.pc, [OP_SYSCALL, n])
    ensures Exec(text, s, sys) == Exec(text, State(s.pc + 2, st + [sys(f, vs, s.mem).0], sys(f, vs, s.mem).1), sys)
  {
    hide Apply, Load32, Store32, Join, Exec;
    ExecStep(text, s, sys);
    var c := text[s.pc..s.pc + 2];
    assert text[s.pc] == c[0] && text[s.pc + 1] == c[1];
    assert s.stack[|st|] == f && s.stack[|st| + 1..] == vs && s.stack[..|st|] == st;
  }

  // --------------------------------------------------------- short sequences

  /** ST_DWORD then LD_VALUE_DWORD_STACK: the stored value stays on the stack. */
  lemma RunStoreLoad(text: seq<Byte>, s: State, st: seq<Word>, a: Word, v: Word, sys: Syscall)
    requires |text| == TEXT_MAX && Sits(text, s.pc, [OP_ST_DWORD, OP_LD_VALUE_DWORD_STACK])
    requires s.stack == st + [a, v]
    ensures Exec(text, s, sys) == Exec(text, State(s.pc + 2, st + [v], Store32(s.mem, a, v)), sys)
  {
    hide Store32, Load32, Exec;
    assert [OP_ST_DWORD, OP_LD_VALUE_DWORD_STACK] == [OP_ST_DWORD] + [OP_LD_VALUE_DWORD_STACK];
    SitsSplit(text, s.pc, [OP_ST_DWORD], [OP_LD_VALUE_DWORD_STACK]);
    RunStore(text, s, st, a, v, sys);
    RunOp(text, State(s.pc + 1, st + [a], Store32(s.mem, a, v)), OP_LD_VALUE_DWORD_STACK, st, a, sys);
    LoadAfterStore(s.mem, a, v);
  }

  function Bump(op: StepOp, w: Word): Word {
    Wrap(if op.PreInc? || op.PostInc? then w + 1 else w - 1)
  }

  /** The common body of ++ and --: load, push 1, add or subtract, store. */
  lemma RunBump(text: seq<Byte>, s: State, op: StepOp, st: seq<Word>, a: Word, b: Word, sys: Syscall)
    requires s.stack == st + [a]
    requires Ready(text, s, BumpCode(op, b))
    ensures Exec(text, s, sys)
            == Exec(text, State(s.pc + 12, st + [a], Store32(s.mem, a, Bump(op, Load32(s.mem, b)))), sys)
  {
    hide Store32, Load32, Exec;
    var bop := if op.PreInc? || op.PostInc? then Add else Sub;
    var o := Opcode(bop);
    var w := Load32(s.mem, b);
    assert BumpCode(op, b) == LdValue(b) + (Ld(1) + ([o] + [OP_ST_DWORD]));
    SitsSplit(text, s.pc, LdValue(b), Ld(1) + ([o] + [OP_ST_DWORD]));
    SitsSplit(text, s.pc + 5, Ld(1), [o] + [OP_ST_DWORD]);
    SitsSplit(text, s.pc + 10, [o], [OP_ST_DWORD]);
    RunLdValue(text, s, b, sys);
    var s1 := State(s.pc + 5, s.stack + [w], s.mem);
    RunLd(text, s1, 1, sys);
    var s2 := State(s.pc + 10, s1.stack + [1], s.mem);
    assert s2.stack == (st + [a]) + [w, 1];
    RunBin(text, s2, bop, st + [a], w, 1, sys);
    var s3 := State(s.pc + 11, st + [a] + [Bump(op, w)], s.mem);
    assert s3.stack == st + [a, Bump(op, w)];
    RunStore(text, s3, st, a, Bump(op, w), sys);
  }

  function BumpCode(op: StepOp, a: Word): seq<Byte> {
    LdValue(a) + Ld(1) + [if op.PreInc? || op.PostInc? then OP_ADD_DWORD else OP_SUB_DWORD, OP_ST_DWORD]
  }

  /** Prefix ++ or -- on an operand at a, when the code reads its value at b. */
  lemma RunPrefix(text: seq<Byte>, s: State, op: StepOp, a: Word, b: Word, sys: Syscall)
    requires (op.PreInc? || op.PreDec?) && Ready(text, s, Ld(a) + StepCode(op, b))
    ensures var now := Bump(op, Load32(s.mem, b));
            Exec(text, s, sys) == Exec(text, State(s.pc + 18, s.stack + [now], Store32(s.mem, a, now)), sys)
  {
    hide Store32, Load32, Exec, Bump;
    var body := BumpCode(op, b);
    var now := Bump(op, Load32(s.mem, b));
    assert StepCode(op, b) == body + [OP_LD_VALUE_DWORD_STACK];
    SitsSplit(text, s.pc, Ld(a), body + [OP_LD_VALUE_DWORD_STACK]);
    SitsSplit(text, s.pc + 5, body, [OP_LD_VALUE_DWORD_STACK]);
    RunLd(text, s, a, sys);
    RunBump(text, State(s.pc + 5, s.stack + [a], s.mem), op, s.stack, a, b, sys);
    RunOp(text, State(s.pc + 17, s.stack + [a], Store32(s.mem, a, now)), OP_LD_VALUE_DWORD_STACK, s.stack, a, sys);
    LoadAfterStore(s.mem, a, now);
  }

  /** Postfix ++ or -- on a variable at a, when the code counts at b: the value at a
      stays on the stack. */
  lemma RunPostfix(text: seq<Byte>, s: State, op: StepOp, a: Word, b: Word, sys: Syscall)
    requires (op.PostInc? || op.PostDec?) && Ready(text, s, LdValue(a) + StepCode(op, b))
    ensures Exec(text, s, sys)
            == Exec(text, State(s.pc + 23, s.stack + [Load32(s.mem, a)],
                                Store32(s.mem, b, Bump(op, Load32(s.mem, b)))), sys)
  {
    hide Store32, Load32, Exec, Bump;
    var body := BumpCode(op, b);
    assert StepCode(op, b) == Ld(b) + (body + [OP_POP]);
    SitsSplit(text, s.pc, LdValue(a), Ld(b) + (body + [OP_POP]));
    SitsSplit(text, s.pc + 5, Ld(b), body + [OP_POP]);
    SitsSplit(text, s.pc + 10, body, [OP_POP]);
    var st := s.stack + [Load32(s.mem, a)];
    RunLdValue(text, s, a, sys);
    RunLd(text, State(s.pc + 5, st, s.mem), b, sys);
    RunBump(text, State(s.pc + 10, st + [b], s.mem), op, st, b, b, sys);
    RunOp(text, State(s.pc + 22, st + [b], Store32(s.mem, b, Bump(op, Load32(s.mem, b)))), OP_POP, st, b, sys);
  }

  // -------------------------------------------------------------- expressions

  /** What running `code` from s must amount to, given the direct meaning. */
  ghost predicate Agrees(text: seq<Byte>, s: State, code: seq<Byte>, r: Option<Value>, sys: Syscall)
    requires |text| == TEXT_MAX
  {
    match r
    case None => Exec(text, s, sys) == None
    case Some(x) => Exec(text, s, sys) == Exec(text, State(s.pc + |code|, s.stack + [x.v], x.mem), sys)
  }

  ghost predicate AgreesArgs(text: seq<Byte>, s: State, code: seq<Byte>, r: Option<Values>, sys: Syscall)
    requires |text| == TEXT_MAX
  {
    match r
    case None => Exec(text, s, sys) == None
    case Some(x) => Exec(text, s, sys) == Exec(text, State(s.pc + |code|, s.stack + x.vs, x.mem), sys)
  }

  lemma {:induction false} CodeLength(e: Expr, env: Env)
    requires WellFormed(e, env)
    ensures |ValueCode(e, env)| >= 5
    ensures Lvalue(e, env) ==> |AddrCode(e, env)| >= 5
  {
    match e
    case Lit(k, v) => CodeOfLit(k, v, env);
    case Name(id) => CodeOfName(id, env);
    case Neg(x) => CodeOfNeg(x, env);
    case BitNot(x) => CodeOfUnary(x, env); CodeLength(x, env);
    case Deref(x) => CodeOfUnary(x, env); CodeOfAddress(x, env); CodeLength(x, env);
    case AddrOf(x) => CodeOfAddress(x, env); CodeLength(x, env);
    case Incr(op, x) => CodeOfIncr(op, x.id, env);
    case Bin(op, x, y) => CodeOfBin(op, x, y, env); CodeLength(x, env);
    case Assign(x, y) => CodeOfAssign(x, y, env); CodeLength(x, env);
    case Call(f, args) => CodeOfCall(f, args, env);
  }

  /** The value code of an expression does what the expression means. */
  lemma {:induction false} RunExpr(e: Expr, env: Env, text: seq<Byte>, s: State, sys: Syscall)
    requires WellFormed(e, env) && Ready(text, s, ValueCode(e, env))
    ensures Agrees(text, s, ValueCode(e, env), Eval(e, env, s.mem, sys), sys)
    decreases e, 1
  {
    hide Exec, Load32, Store32, Apply, ValueCode, AddrCode, ArgsCode;
    match e
    case Lit(k, v) =>
      CodeOfLit(k, v, env);
      RunLd(text, s, v, sys);
    case Name(id) =>
      CodeOfName(id, env);
      match SymbolOf(env, id) {
        case VarSym(a) => RunLdValue(text, s, a, sys);
        case SysVarSym(a, _) => RunLdValue(text, s, a, sys);
        case CallSym(f) => RunLd(text, s, f, sys);
      }
    case Neg(x) => RunNeg(x, env, text, s, sys);
    case BitNot(x) => RunUnary(x, env, OP_BITWISE_DWORD, text, s, sys);
    case Deref(x) => RunUnary(x, env, OP_LD_VALUE_DWORD_STACK, text, s, sys);
    case AddrOf(x) =>
      CodeOfAddress(x, env);
      RunAddr(x, env, text, s, sys);
    case Incr(op, x) =>
      CodeOfIncr(op, x.id, env);
      var a := SymbolOf(env, x.id).addr;
      if op.PreInc? || op.PreDec? {
        RunPrefix(text, s, op, a, a, sys);
      } else {
        RunPostfix(text, s, op, a, a, sys);
      }
    case Bin(op, x, y) => RunBinary(op, x, y, env, text, s, sys);
    case Assign(x, y) => RunAssign(x, y, env, text, s, sys);
    case Call(f, args) => RunCalling(f, args, env, text, s, sys);
  }

  lemma {:induction false} RunUnary(x: Expr, env: Env, op: Byte, text: seq<Byte>, s: State, sys: Syscall)
    requires op == OP_BITWISE_DWORD || op == OP_LD_VALUE_DWORD_STACK
    requires var e := if op == OP_BITWISE_DWORD then BitNot(x) else Deref(x);
             WellFormed(e, env) && Ready(text, s, ValueCode(e, env))
    ensures var e := if op == OP_BITWISE_DWORD then BitNot(x) else Deref(x);
            Agrees(text, s, ValueCode(e, env), Eval(e, env, s.mem, sys), sys)
    decreases x, 2
  {
    hide Exec, Load32, Store32, ValueCode;
    CodeOfUnary(x, env);
    var c := ValueCode(x, env);
    SitsSplit(text, s.pc, c, [op]);
    RunExpr(x, env, text, s, sys);
    var r := Eval(x, env, s.mem, sys);
    if r.Some? {
      RunOp(text, State(s.pc + |c|, s.stack + [r.value.v], r.value.mem), op, s.stack, r.value.v, sys);
    }
  }

  lemma {:induction false} RunCalling(f: string, args: Args, env: Env, text: seq<Byte>, s: State, sys: Syscall)
    requires WellFormed(Call(f, args), env) && Ready(text, s, ValueCode(Call(f, args), env))
    ensures Agrees(text, s, ValueCode(Call(f, args), env), Eval(Call(f, args), env, s.mem, sys), sys)
    decreases Call(f, args), 0
  {
    hide Exec, Load32, Store32, ValueCode, ArgsCode;
    CodeOfCall(f, args, env);
    var fn := SymbolOf(env, f).func;
    var c := ArgsCode(args, env);
    var op := [OP_SYSCALL, Count(args)];
    assert Ld(fn) + c + op == Ld(fn) + (c + op);
    SitsSplit(text, s.pc, Ld(fn), c + op);
    SitsSplit(text, s.pc + 5, c, op);
    RunLd(text, s, fn, sys);
    var s1 := State(s.pc + 5, s.stack + [fn], s.mem);
    RunArgs(args, env, text, s1, sys);
    var r := EvalArgs(args, env, s.mem, sys);
    if r.Some? {
      RunCall(text, State(s1.pc + |c|, s1.stack + r.value.vs, r.value.mem), Count(args), s.stack, fn, r.value.vs, sys);
    }
  }

  lemma {:induction false} RunNeg(x: Expr, env: Env, text: seq<Byte>, s: State, sys: Syscall)
    requires WellFormed(x, env) && Ready(text, s, ValueCode(Neg(x), env))
    ensures Agrees(text, s, ValueCode(Neg(x), env), Eval(Neg(x), env, s.mem, sys), sys)
    decreases x, 2
  {
    hide Exec, Load32, Store32, ValueCode;
    CodeOfNeg(x, env);
    var c := ValueCode(x, env);
    assert Ld(0) + c + [OP_SUB_DWORD] == Ld(0) + (c + [OP_SUB_DWORD]);
    SitsSplit(text, s.pc, Ld(0), c + [OP_SUB_DWORD]);
    SitsSplit(text, s.pc + 5, c, [OP_SUB_DWORD]);
    RunLd(text, s, 0, sys);
    var s1 := State(s.pc + 5, s.stack + [0], s.mem);
    RunExpr(x, env, text, s1, sys);
    var r := Eval(x, env, s.mem, sys);
    if r.Some? {
      var s2 := State(s1.pc + |c|, s1.stack + [r.value.v], r.value.mem);
      assert s2.stack == s.stack + [0, r.value.v];
      RunBin(text, s2, Sub, s.stack, 0, r.value.v, sys);
    }
  }

  lemma {:induction false} RunBinary(op: BinOp, x: Expr, y: Expr, env: Env, text: seq<Byte>, s: State, sys: Syscall)
    requires WellFormed(Bin(op, x, y), env) && Ready(text, s, ValueCode(Bin(op, x, y), env))
    ensures Agrees(text, s, ValueCode(Bin(op, x, y), env), Eval(Bin(op, x, y), env, s.mem, sys), sys)
    decreases Bin(op, x, y), 0
  {
    hide Exec, Load32, Store32, Apply, ValueCode;
    CodeOfBin(op, x, y, env);
    var c, d := ValueCode(x, env), ValueCode(y, env);
    assert c + d + [Opcode(op)] == c + (d + [Opcode(op)]);
    SitsSplit(text, s.pc, c, d + [Opcode(op)]);
    SitsSplit(text, s.pc + |c|, d, [Opcode(op)]);
    RunExpr(x, env, text, s, sys);
    var r := Eval(x, env, s.mem, sys);
    if r.Some? {
      CodeLength(x, env);
      var s1 := State(s.pc + |c|, s.stack + [r.value.v], r.value.mem);
      RunExpr(y, env, text, s1, sys);
      var q := Eval(y, env, s1.mem, sys);
      if q.Some? {
        var s2 := State(s1.pc + |d|, s1.stack + [q.value.v], q.value.mem);
        assert s2.stack == s.stack + [r.value.v, q.value.v];
        RunBin(text, s2, op, s.stack, r.value.v, q.value.v, sys);
      }
    }
  }

  lemma {:induction false} RunAssign(x: Expr, y: Expr, env: Env, text: seq<Byte>, s: State, sys: Syscall)
    requires WellFormed(Assign(x, y), env) && Ready(text, s, ValueCode(Assign(x, y), env))
    ensures Agrees(text, s, ValueCode(Assign(x, y), env), Eval(Assign(x, y), env, s.mem, sys), sys)
    decreases Assign(x, y), 0
  {
    hide Exec, Load32, Store32, ValueCode, AddrCode;
    CodeOfAssign(x, y, env);
    var c, d, op := AddrCode(x, env), ValueCode(y, env), [OP_ST_DWORD, OP_LD_VALUE_DWORD_STACK];
    assert c + d + op == c + (d + op);
    SitsSplit(text, s.pc, c, d + op);
    SitsSplit(text, s.pc + |c|, d, op);
    RunAddr(x, env, text, s, sys);
    var r := Locate(x, env, s.mem, sys);
    if r.Some? {
      CodeLength(x, env);
      var s1 := State(s.pc + |c|, s.stack + [r.value.v], r.value.mem);
      RunExpr(y, env, text, s1, sys);
      var q := Eval(y, env, s1.mem, sys);
      if q.Some? {
        var s2 := State(s1.pc + |d|, s1.stack + [q.value.v], q.value.mem);
        assert s2.stack == s.stack + [r.value.v, q.value.v];
        RunStoreLoad(text, s2, s.stack, r.value.v, q.value.v, sys);
      }
    }
  }

  /** The address code of an lvalue leaves its address. */
  lemma {:induction false} RunAddr(e: Expr, env: Env, text: seq<Byte>, s: State, sys: Syscall)
    requires WellFormed(e, env) && Lvalue(e, env) && Ready(text, s, AddrCode(e, env))
    ensures Agrees(text, s, AddrCode(e, env), Locate(e, env, s.mem, sys), sys)
    decreases e, 0
  {
    hide Exec, Load32, Store32, ValueCode, AddrCode;
    match e
    case Name(id) =>
      CodeOfName(id, env);
      RunLd(text, s, SymbolOf(env, id).addr, sys);
    case Deref(x) =>
      CodeOfAddress(x, env);
      RunExpr(x, env, text, s, sys);
  }

  lemma {:induction false} RunArgs(args: Args, env: Env, text: seq<Byte>, s: State, sys: Syscall)
    requires WellFormedArgs(args, env) && Ready(text, s, ArgsCode(args, env))
    ensures AgreesArgs(text, s, ArgsCode(args, env), EvalArgs(args, env, s.mem, sys), sys)
    decreases args, 1
  {
    hide Exec, Load32, Store32, ValueCode, ArgsCode;
    match args
    case End =>
      assert ArgsCode(args, env) == [] by { CodeOfNoArgs(env); }
      assert s.stack + [] == s.stack;
    case More(e, t) =>
      CodeOfArgs(e, t, env);
      SitsSplit(text, s.pc, ValueCode(e, env), ArgsCode(t, env));
      RunExpr(e, env, text, s, sys);
      var r := Eval(e, env, s.mem, sys);
      if r.Some? {
        CodeLength(e, env);
        var s1 := State(s.pc + |ValueCode(e, env)|, s.stack + [r.value.v], r.value.mem);
        RunArgs(t, env, text, s1, sys);
        var q := EvalArgs(t, env, s1.mem, sys);
        if q.Some? {
          assert s1.stack + q.value.vs == s.stack + ([r.value.v] + q.value.vs);
        }
      }
  }

  // ----------------------------------------------------------------- programs

  ghost predicate AllWellFormed(stmts: seq<Expr>, env: Env) {
    forall i :: 0 <= i < |stmts| ==> WellFormed(stmts[i], env)
  }

  function CodeOf(stmts: seq<Expr>, env: Env): seq<Byte> {
    ProgramCode(Annotate(LowerAll(stmts, env), false))
  }

  /** The text segment after finsh_compiler_run: the code, then zeros. */
  function Segment(code: seq<Byte>): (text: seq<Byte>)
    requires |code| <= TEXT_MAX
    ensures |text| == TEXT_MAX
  {
    code + seq(TEXT_MAX - |code|, _ => OP_NOOP)
  }

  lemma SegmentShape(code: seq<Byte>)
    requires |code| <= TEXT_MAX
    ensures Sits(Segment(code), 0, code)
    ensures forall i :: |code| <= i < TEXT_MAX ==> Segment(code)[i] == OP_NOOP
  {
  }

  lemma CodeOfStatements(stmts: seq<Expr>, env: Env)
    requires |stmts| > 0
    ensures CodeOf(stmts, env)
            == ValueCode(stmts[0], env) + if |stmts| == 1 then [] else [OP_POP] + CodeOf(stmts[1..], env)
  {
    var t := Annotate(Lower(stmts[0], env), false);
    assert Annotate(LowerAll(stmts, env), false) == WithSibling(t, Annotate(LowerAll(stmts[1..], env), false));
    assert WithSibling(WithSibling(t, Annotate(LowerAll(stmts[1..], env), false)), Nil) == t;
  }

  /** The machine at the end of the text, with this result on the stack. */
  function Final(r: Option<Value>): Option<State> {
    match r
    case None => None
    case Some(v) => Some(State(TEXT_MAX, [v.v], v.mem))
  }

  lemma {:induction false} RunStatements(stmts: seq<Expr>, env: Env, text: seq<Byte>, s: State, sys: Syscall)
    requires |stmts| > 0 && AllWellFormed(stmts, env) && s.stack == []
    requires Ready(text, s, CodeOf(stmts, env))
    requires forall i :: s.pc + |CodeOf(stmts, env)| <= i < |text| ==> text[i] == OP_NOOP
    ensures Exec(text, s, sys) == Final(EvalAll(stmts, env, s.mem, sys))
    decreases |stmts|
  {
    hide Exec, Load32, Store32, ValueCode, CodeOf, Eval, Sits, WellFormed;
    CodeOfStatements(stmts, env);
    if |stmts| == 1 {
      assert CodeOf(stmts, env) == ValueCode(stmts[0], env);
      RunLastStatement(stmts[0], env, text, s, sys);
    } else {
      var c, d := ValueCode(stmts[0], env), CodeOf(stmts[1..], env);
      var r := Eval(stmts[0], env, s.mem, sys);
      SitsSplit(text, s.pc, c, [OP_POP] + d);
      SitsSplit(text, s.pc + |c|, [OP_POP], d);
      RunStatement(stmts[0], env, text, s, sys);
      if r.Some? {
        RunStatements(stmts[1..], env, text, State(s.pc + |c| + 1, [], r.value.mem), sys);
      }
    }
  }

  /** A statement with others behind it: its value is popped. */
  lemma RunStatement(e: Expr, env: Env, text: seq<Byte>, s: State, sys: Syscall)
    requires WellFormed(e, env) && s.stack == [] && Ready(text, s, ValueCode(e, env))
    requires Sits(text, s.pc + |ValueCode(e, env)|, [OP_POP])
    ensures match Eval(e, env, s.mem, sys)
            case None => Exec(text, s, sys) == None
            case Some(r) => Exec(text, s, sys) == Exec(text, State(s.pc + |ValueCode(e, env)| + 1, [], r.mem), sys)
  {
    hide Exec, Load32, Store32, ValueCode, Eval, Sits, WellFormed;
    var c, r := ValueCode(e, env), Eval(e, env, s.mem, sys);
    RunExpr(e, env, text, s, sys);
    if r.Some? {
      assert s.stack + [r.value.v] == [] + [r.value.v];
      RunOp(text, State(s.pc + |c|, [] + [r.value.v], r.value.mem), OP_POP, [], r.value.v, sys);
    }
  }

  /** The last statement: its value stays, and the run goes on through the zeros. */
  lemma RunLastStatement(e: Expr, env: Env, text: seq<Byte>, s: State, sys: Syscall)
    requires WellFormed(e, env) && s.stack == [] && Ready(text, s, ValueCode(e, env))
    requires forall i :: s.pc + |ValueCode(e, env)| <= i < |text| ==> text[i] == OP_NOOP
    ensures Exec(text, s, sys) == Final(Eval(e, env, s.mem, sys))
  {
    hide Exec, Load32, Store32, ValueCode, Eval, WellFormed;
    var c, r := ValueCode(e, env), Eval(e, env, s.mem, sys);
    RunExpr(e, env, text, s, sys);
    if r.Some? {
      assert s.stack + [r.value.v] == [r.value.v];
      ExecNoops(text, State(s.pc + |c|, [r.value.v], r.value.mem), sys);
    }
  }

  /** Compiler correctness. For every list of well-formed statements whose code
      fits the text segment, the machine run ends with one stack slot, holding the
      value of the last statement, and with the memory of direct evaluation; and
      it is undefined exactly when direct evaluation is. */
  lemma CompilerCorrect(stmts: seq<Expr>, env: Env, m: Memory, sys: Syscall)
    requires |stmts| > 0 && AllWellFormed(stmts, env) && |CodeOf(stmts, env)| <= TEXT_MAX
    ensures Exec(Segment(CodeOf(stmts, env)), State(0, [], m), sys) == Final(EvalAll(stmts, env, m, sys))
  {
    hide Exec, CodeOf;
    RunStatements(stmts, env, Segment(CodeOf(stmts, env)), State(0, [], m), sys);
  }

  // ------------------------------------------- where the compiler falls short

  /** The machine's end is the right one for the statement. */
  ghost predicate Right(e: Expr, env: Env, m: Memory, sys: Syscall)
    requires |CodeOf([e], env)| <= TEXT_MAX
  {
    Exec(Segment(CodeOf([e], env)), State(0, [], m), sys) == Final(Eval(e, env, m, sys))
  }

  /** An operator that gets no opcode leaves its operands as they are: two slots for a
      binary operator, whose run is right if and only if the type of the first operand
      is DWORD, so never if that operand starts with a call. */
  lemma BinaryRightIff(op: BinOp, x: Expr, y: Expr, env: Env, m: Memory, sys: Syscall)
    requires WellFormed(x, env) && WellFormed(y, env)
    requires |CodeOf([Bin(op, x, y)], env)| <= TEXT_MAX
    requires Eval(Bin(op, x, y), env, m, sys).Some?
    ensures Right(Bin(op, x, y), env, m, sys) <==> Head(x, env) == DATA_DWORD
  {
    hide Exec, Load32, Store32, ValueCode, CodeOf, Eval;
    var stmts := [Bin(op, x, y)];
    if Head(x, env) == DATA_DWORD {
      CompilerCorrect(stmts, env, m, sys);
    } else {
      CodeOfStatements(stmts, env);
      CodeOfBin(op, x, y, env);
      EvalOperands(op, x, y, env, m, sys);
      RunPair(x, y, env, CodeOf(stmts, env), m, sys);
    }
  }

  /** The same for ~ and * over an expression: without the opcode the operand's own value
      stays, so ~ is never right and * only if the word at that address is the address. */
  lemma UnaryRightIff(x: Expr, deref: bool, env: Env, m: Memory, sys: Syscall)
    requires WellFormed(x, env) && Eval(x, env, m, sys).Some?
    requires |CodeOf([if deref then Deref(x) else BitNot(x)], env)| <= TEXT_MAX
    ensures var q := Eval(x, env, m, sys).value;
            Right(if deref then Deref(x) else BitNot(x), env, m, sys)
            <==> Head(x, env) == DATA_DWORD || (deref && Load32(q.mem, q.v) == q.v)
  {
    hide Exec, Load32, Store32, ValueCode, CodeOf;
    var e := if deref then Deref(x) else BitNot(x);
    var stmts := [e];
    if Head(x, env) == DATA_DWORD {
      CompilerCorrect(stmts, env, m, sys);
    } else {
      CodeOfStatements(stmts, env);
      CodeOfUnary(x, env);
      var text := Segment(CodeOf(stmts, env));
      SegmentShape(CodeOf(stmts, env));
      assert CodeOf(stmts, env) == ValueCode(x, env);
      RunExpr(x, env, text, State(0, [], m), sys);
      var q := Eval(x, env, m, sys).value;
      assert [] + [q.v] == [q.v];
      ExecNoops(text, State(|ValueCode(x, env)|, [q.v], q.mem), sys);
    }
  }

  /** Code that pushes two values and does nothing with them ends with two slots. */
  lemma RunPair(x: Expr, y: Expr, env: Env, code: seq<Byte>, m: Memory, sys: Syscall)
    requires WellFormed(x, env) && WellFormed(y, env) && code == ValueCode(x, env) + ValueCode(y, env)
             && |code| <= TEXT_MAX
    requires Eval(x, env, m, sys).Some? && Eval(y, env, Eval(x, env, m, sys).value.mem, sys).Some?
    ensures var r := Exec(Segment(code), State(0, [], m), sys); r.Some? && |r.value.stack| == 2
  {
    hide Exec, Load32, Store32, ValueCode, Eval;
    var c, d := ValueCode(x, env), ValueCode(y, env);
    var text := Segment(code);
    SegmentShape(code);
    SitsSplit(text, 0, c, d);
    RunExpr(x, env, text, State(0, [], m), sys);
    var r := Eval(x, env, m, sys).value;
    CodeLength(x, env);
    assert [] + [r.v] == [r.v];
    RunExpr(y, env, text, State(|c|, [r.v], r.mem), sys);
    var q := Eval(y, env, r.mem, sys).value;
    ExecNoops(text, State(|c| + |d|, [r.v] + [q.v], q.mem), sys);
  }

  lemma EvalOperands(op: BinOp, x: Expr, y: Expr, env: Env, m: Memory, sys: Syscall)
    requires Eval(Bin(op, x, y), env, m, sys).Some?
    ensures Eval(x, env, m, sys).Some? && Eval(y, env, Eval(x, env, m, sys).value.mem, sys).Some?
  {
  }

  /** ++ and -- on a system variable take the operand's id for that of a shell variable
      and use the alias address it gives: prefix reads there and stores at the variable,
      postfix reads and stores there. The run of the first is right if and only if the
      words at both addresses agree, that of the second if and only if the addresses do. */
  lemma SystemVariableStep(op: StepOp, id: string, env: Env, m: Memory, sys: Syscall)
    requires SymbolOf(env, id).SysVarSym?
    requires |CodeOf([Incr(op, Name(id))], env)| <= TEXT_MAX
    ensures var a, b := SymbolOf(env, id).addr, SymbolOf(env, id).alias;
            Right(Incr(op, Name(id)), env, m, sys)
            <==> if op.PreInc? || op.PreDec? then Load32(m, b) == Load32(m, a) else b == a
  {
    hide Exec, Load32, Store32, ValueCode, CodeOf, Ld, LdValue, StepCode, Segment, Bump;
    var stmts := [Incr(op, Name(id))];
    var a, b := SymbolOf(env, id).addr, SymbolOf(env, id).alias;
    var va, vb := Load32(m, a), Load32(m, b);
    CodeOfStatements(stmts, env);
    CodeOfIncr(op, id, env);
    var text := Segment(CodeOf(stmts, env));
    SegmentShape(CodeOf(stmts, env));
    StepLength(op, a, b);
    EvalStep(op, id, env, m, sys);
    if op.PreInc? || op.PreDec? {
      RunPrefix(text, State(0, [], m), op, a, b, sys);
      var now := Bump(op, vb);
      assert [] + [now] == [now];
      ExecNoops(text, State(18, [now], Store32(m, a, now)), sys);
      BumpInjective(op, va, vb);
    } else {
      RunPostfix(text, State(0, [], m), op, a, b, sys);
      assert [] + [va] == [va];
      ExecNoops(text, State(23, [va], Store32(m, b, Bump(op, vb))), sys);
      StoresApart(m, a, b, op);
    }
  }

  lemma StepLength(op: StepOp, a: Word, b: Word)
    ensures op.PreInc? || op.PreDec? ==> |Ld(a) + StepCode(op, b)| == 18
    ensures op.PostInc? || op.PostDec? ==> |LdValue(a) + StepCode(op, b)| == 23
  {
  }

  lemma EvalStep(op: StepOp, id: string, env: Env, m: Memory, sys: Syscall)
    requires SymbolOf(env, id).SysVarSym?
    ensures var a := SymbolOf(env, id).addr;
            Eval(Incr(op, Name(id)), env, m, sys)
            == Some(Value(if op.PreInc? || op.PreDec? then Bump(op, Load32(m, a)) else Load32(m, a),
                          Store32(m, a, Bump(op, Load32(m, a)))))
  {
    hide Load32, Store32;
  }

  lemma BumpInjective(op: StepOp, v: Word, w: Word)
    ensures Bump(op, v) == Bump(op, w) <==> v == w
  {
  }

  /** The low byte of a counter always changes. */
  lemma BumpLowByte(m: Memory, a: Word, op: StepOp)
    ensures Load8(Store32(m, a, Bump(op, Load32(m, a))), a) != Load8(m, a)
  {
    hide Load8, Store32, Load32, Bump;
    LowByteOf(m, a);
    StoreLowByte(m, a, Bump(op, Load32(m, a)));
    BumpParity(op, Load32(m, a));
  }

  lemma StoreLowByte(m: Memory, a: Word, v: Word)
    ensures Load8(Store32(m, a, v), a) == v % 256
  {
    hide ByteOf;
    assert a != At(a, 1) && a != At(a, 2) && a != At(a, 3);
    assert ByteOf(v, 0) == v % 256 by { LowByteIs(v); }
  }

  lemma LowByteIs(v: Word)
    ensures ByteOf(v, 0) == v % 256
  {
  }

  lemma BumpParity(op: StepOp, v: Word)
    ensures Bump(op, v) % 256 != v % 256
  {
    hide Bump;
    BumpIs(op, v);
    var w := Bump(op, v);
    var p, q := w / 256, v / 256;
    assert w == 256 * p + w % 256 && v == 256 * q + v % 256;
    assert w - v == 256 * (p - q) + (w % 256 - v % 256);
  }

  lemma BumpIs(op: StepOp, v: Word)
    ensures var w := Bump(op, v); w - v == 1 || w - v == -1 || w - v == 0xFFFF_FFFF || w - v == -0xFFFF_FFFF
  {
  }

  lemma LowByteOf(m: Memory, a: Word)
    ensures Load32(m, a) % 256 == Load8(m, a)
  {
  }

  /** Of two addresses one is not within three bytes after the other. */
  lemma NotBothWays(a: Word, b: Word)
    requires a == At(b, 1) || a == At(b, 2) || a == At(b, 3)
    ensures b != At(a, 1) && b != At(a, 2) && b != At(a, 3)
  {
    hide At;
    forall i, j | 1 <= i <= 3 && 1 <= j <= 3 && a == At(b, i) ensures b != At(a, j) {
      AtIs(b, i);
      AtIs(a, j);
    }
  }

  lemma AtIs(a: Word, k: nat)
    requires k <= 3
    ensures At(a, k) == a + k || At(a, k) == a + k - 0x1_0000_0000
  {
  }

  /** Counting at two different addresses is never the same, even if they overlap. */
  lemma StoresApart(m: Memory, a: Word, b: Word, op: StepOp)
    ensures Store32(m, a, Bump(op, Load32(m, a))) == Store32(m, b, Bump(op, Load32(m, b))) <==> a == b
  {
    hide Load32, Store32, Bump, Load8, At;
    if a != b {
      var x, y := Store32(m, a, Bump(op, Load32(m, a))), Store32(m, b, Bump(op, Load32(m, b)));
      BumpLowByte(m, a, op);
      BumpLowByte(m, b, op);
      if a != At(b, 1) && a != At(b, 2) && a != At(b, 3) {
        StoreElsewhere(m, b, Bump(op, Load32(m, b)), a);
      } else {
        NotBothWays(a, b);
        StoreElsewhere(m, a, Bump(op, Load32(m, a)), b);
      }
    }
  }
}
