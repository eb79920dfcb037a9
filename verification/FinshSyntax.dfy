/** finsh expressions, their direct meaning, and the first-child/next-sibling
    nodes the parser builds and the compiler walks (finsh_node.h). */
module FinshSyntax {
  import opened Basics
  import opened FinshOperators
  import opened FinshMachine

  // ------------------------------------------------------------ expressions

  /** What an identifier resolves to (finsh_node_new_id looks in this order). A
      variable is known by the address of its value field. A system variable has
      its own address, and `alias` is the address the compiler computes when it
      takes the finsh_sysvar record for a finsh_var. */
  datatype Symbol =
    | VarSym(addr: Word)
    | SysVarSym(addr: Word, alias: Word)
    | CallSym(func: Word)
    | NoSym

  type Env = map<string, Symbol>

  datatype LitKind = IntLit | LongLit

  datatype StepOp = PreInc | PreDec | PostInc | PostDec

  datatype Expr =
    | Lit(kind: LitKind, value: Word)
    | Name(id: string)
    | Neg(e: Expr)
    | BitNot(e: Expr)
    | Deref(e: Expr)
    | AddrOf(e: Expr)
    | Incr(op: StepOp, e: Expr)
    | Bin(bop: BinOp, l: Expr, r: Expr)
    | Assign(l: Expr, r: Expr)
    | Call(f: string, args: Args)

  datatype Args = End | More(head: Expr, tail: Args)

  function Count(args: Args): nat {
    match args case End => 0 case More(_, t) => 1 + Count(t)
  }

  function SymbolOf(env: Env, id: string): Symbol {
    if id in env then env[id] else NoSym
  }

  // --------------------------------------------------------- direct meaning

  datatype Value = Value(v: Word, mem: Memory)
  datatype Values = Values(vs: seq<Word>, mem: Memory)

  /** The value of an expression and the memory after it. None where an operator
      is undefined, or where the expression has no meaning at all. Operands are
      evaluated left to right, the target of an assignment first. */
  function Eval(e: Expr, env: Env, m: Memory, sys: Syscall): Option<Value>
    decreases e, 1
  {
    match e
    case Lit(_, v) => Some(Value(v, m))
    case Name(id) =>
      (match SymbolOf(env, id)
       case VarSym(a) => Some(Value(Load32(m, a), m))
       case SysVarSym(a, _) => Some(Value(Load32(m, a), m))
       case CallSym(f) => Some(Value(f, m))
       case NoSym => None)
    case Neg(x) =>
      var r := Eval(x, env, m, sys);
      if r.None? then None else Some(Value(Wrap(0 - r.value.v), r.value.mem))
    case BitNot(x) =>
      var r := Eval(x, env, m, sys);
      if r.None? then None else Some(Value(Complement(r.value.v), r.value.mem))
    case Deref(x) =>
      var r := Eval(x, env, m, sys);
      if r.None? then None else Some(Value(Load32(r.value.mem, r.value.v), r.value.mem))
    case AddrOf(x) => Locate(x, env, m, sys)
    case Incr(op, x) =>
      var a := Locate(x, env, m, sys);
      if a.None? then None
      else
        var was := Load32(a.value.mem, a.value.v);
        var now := Wrap(if op.PreInc? || op.PostInc? then was + 1 else was - 1);
        Some(Value(if op.PreInc? || op.PreDec? then now else was, Store32(a.value.mem, a.value.v, now)))
    case Bin(op, x, y) =>
      var r := Eval(x, env, m, sys);
      if r.None? then None
      else
        var q := Eval(y, env, r.value.mem, sys);
        if q.None? then None
        else
          var v := Apply(op, r.value.v, q.value.v);
          if v.None? then None else Some(Value(v.value, q.value.mem))
    case Assign(x, y) =>
      var a := Locate(x, env, m, sys);
      if a.None? then None
      else
        var r := Eval(y, env, a.value.mem, sys);
        if r.None? then None
        else Some(Value(r.value.v, Store32(r.value.mem, a.value.v, r.value.v)))
    case Call(f, args) =>
      var s := SymbolOf(env, f);
      if !s.CallSym? then None
      else
        var r := EvalArgs(args, env, m, sys);
        if r.None? then None
        else
          var c := sys(s.func, r.value.vs, r.value.mem);
          Some(Value(c.0, c.1))
  }

  function EvalArgs(args: Args, env: Env, m: Memory, sys: Syscall): (r: Option<Values>)
    ensures r.Some? ==> |r.value.vs| == Count(args)
    decreases args, 1
  {
    match args
    case End => Some(Values([], m))
    case More(e, t) =>
      var r := Eval(e, env, m, sys);
      if r.None? then None
      else
        var q := EvalArgs(t, env, r.value.mem, sys);
        if q.None? then None else Some(Values([r.value.v] + q.value.vs, q.value.mem))
  }

  /** The address an lvalue denotes. */
  function Locate(e: Expr, env: Env, m: Memory, sys: Syscall): Option<Value>
    decreases e, 0
  {
    match e
    case Name(id) =>
      (match SymbolOf(env, id)
       case VarSym(a) => Some(Value(a, m))
       case SysVarSym(a, _) => Some(Value(a, m))
       case _ => None)
    case Deref(x) => Eval(x, env, m, sys)
    case _ => None
  }

  /** A statement list: the value is that of the last statement. */
  function EvalAll(stmts: seq<Expr>, env: Env, m: Memory, sys: Syscall): Option<Value>
    requires |stmts| > 0
  {
    var r := Eval(stmts[0], env, m, sys);
    if r.None? || |stmts| == 1 then r
    else EvalAll(stmts[1..], env, r.value.mem, sys)
  }

  // ------------------------------------------------- what that meaning comes to

  /** A binary operator: defined where C defines it on the values of the operands, read
      from left to right, with the result C asks for. */
  lemma EvalBin(op: BinOp, x: Expr, y: Expr, env: Env, m: Memory, sys: Syscall)
    ensures var r, e := Eval(x, env, m, sys), Eval(Bin(op, x, y), env, m, sys);
            if r.None? then e.None?
            else
              var q := Eval(y, env, r.value.mem, sys);
              (e.Some? <==> q.Some? && Defined(op, r.value.v, q.value.v))
              && (e.Some? ==> Computes(op, r.value.v, q.value.v, e.value.v) && e.value.mem == q.value.mem)
  {
    hide Apply, Computes, Defined, Load32, Store32, Wrap, Complement, Locate, EvalArgs, SymbolOf;
    var r := Eval(x, env, m, sys);
    if r.Some? {
      var q := Eval(y, env, r.value.mem, sys);
      if q.Some? { ApplyComputes(op, r.value.v, q.value.v); }
    }
  }

  /** Minus gives the number that adds up to zero, ~ flips every bit. */
  lemma EvalUnary(x: Expr, env: Env, m: Memory, sys: Syscall)
    ensures var r, n, c := Eval(x, env, m, sys), Eval(Neg(x), env, m, sys), Eval(BitNot(x), env, m, sys);
            (n.Some? <==> r.Some?) && (c.Some? <==> r.Some?)
            && (r.Some? ==>
                  Congruent(r.value.v + n.value.v, 0) && n.value.mem == r.value.mem
                  && Flipped(r.value.v, c.value.v) && c.value.mem == r.value.mem)
  {
    EvalNegIs(x, env, m, sys);
    EvalNotIs(x, env, m, sys);
    hide Eval, Flipped, Complement, Wrap;
    var r := Eval(x, env, m, sys);
    if r.Some? {
      ComplementFlips(r.value.v);
      WrapIs(0 - r.value.v);
    }
  }

  lemma EvalNegIs(x: Expr, env: Env, m: Memory, sys: Syscall)
    ensures var r := Eval(x, env, m, sys);
            Eval(Neg(x), env, m, sys) == if r.None? then None else Some(Value(Wrap(0 - r.value.v), r.value.mem))
  {
    hide Wrap, Complement, Load32, Store32, Apply, Locate, EvalArgs, SymbolOf;
  }

  lemma EvalNotIs(x: Expr, env: Env, m: Memory, sys: Syscall)
    ensures var r := Eval(x, env, m, sys);
            Eval(BitNot(x), env, m, sys) == if r.None? then None else Some(Value(Complement(r.value.v), r.value.mem))
  {
    hide Wrap, Complement, Load32, Store32, Apply, Locate, EvalArgs, SymbolOf;
  }

  /** ++ and -- leave one more or one less at the operand's address and nothing else
      changed; the prefix forms give the new word, the postfix forms the old one. */
  lemma EvalIncr(op: StepOp, x: Expr, env: Env, m: Memory, sys: Syscall)
    ensures var a, e := Locate(x, env, m, sys), Eval(Incr(op, x), env, m, sys);
            (e.Some? <==> a.Some?)
            && (a.Some? ==>
                  var was, now := Load32(a.value.mem, a.value.v), Load32(e.value.mem, a.value.v);
                  Congruent(now, if op.PreInc? || op.PostInc? then was + 1 else was - 1)
                  && e.value.v == (if op.PreInc? || op.PreDec? then now else was)
                  && OnlyAt(a.value.mem, e.value.mem, a.value.v))
  {
    EvalIncrIs(op, x, env, m, sys);
    hide Load32, Store32, Congruent, Wrap, Eval, Locate;
    var a := Locate(x, env, m, sys);
    if a.Some? {
      var was: int := Load32(a.value.mem, a.value.v);
      var to := if op.PreInc? || op.PostInc? then was + 1 else was - 1;
      WrapIs(to);
      LoadAfterStore(a.value.mem, a.value.v, Wrap(to));
      StoresOnly(a.value.mem, a.value.v, Wrap(to));
    }
  }

  lemma EvalIncrIs(op: StepOp, x: Expr, env: Env, m: Memory, sys: Syscall)
    ensures var a, e := Locate(x, env, m, sys), Eval(Incr(op, x), env, m, sys);
            if a.None? then e.None?
            else
              var was := Load32(a.value.mem, a.value.v);
              var now := Wrap(if op.PreInc? || op.PostInc? then was + 1 else was - 1);
              e == Some(Value(if op.PreInc? || op.PreDec? then now else was, Store32(a.value.mem, a.value.v, now)))
  {
    hide Load32, Store32, Wrap, Complement, Apply, Locate, EvalArgs, SymbolOf;
  }

  /** An assignment leaves its value at the address of its target and nothing else
      changed. */
  lemma EvalAssign(x: Expr, y: Expr, env: Env, m: Memory, sys: Syscall)
    ensures var a, e := Locate(x, env, m, sys), Eval(Assign(x, y), env, m, sys);
            if a.None? then e.None?
            else
              var r := Eval(y, env, a.value.mem, sys);
              (e.Some? <==> r.Some?)
              && (r.Some? ==>
                    e.value.v == r.value.v == Load32(e.value.mem, a.value.v)
                    && OnlyAt(r.value.mem, e.value.mem, a.value.v))
  {
    hide Load32, Store32;
    var a := Locate(x, env, m, sys);
    if a.Some? {
      var r := Eval(y, env, a.value.mem, sys);
      if r.Some? {
        LoadAfterStore(r.value.mem, a.value.v, r.value.v);
        StoresOnly(r.value.mem, a.value.v, r.value.v);
      }
    }
  }

  /** The two memories differ in the word at a only. */
  ghost predicate OnlyAt(m: Memory, m': Memory, a: Word) {
    forall c: Word :: c != a && c != At(a, 1) && c != At(a, 2) && c != At(a, 3) ==> Load8(m', c) == Load8(m, c)
  }

  lemma StoresOnly(m: Memory, a: Word, v: Word)
    ensures OnlyAt(m, Store32(m, a, v), a)
  {
    hide Load8, Store32, At;
    forall c: Word | c != a && c != At(a, 1) && c != At(a, 2) && c != At(a, 3)
      ensures Load8(Store32(m, a, v), c) == Load8(m, c)
    {
      StoreElsewhere(m, a, v, c);
    }
  }

  // ------------------------------------------------------------------ nodes

  const DATA_VOID: nat := 0x00
  const DATA_DWORD: nat := 0x03

  datatype Kind =
    | KUnknown
    | KId
    | KLit(lit: LitKind)
    | KBin(bop: BinOp)
    | KBitwise
    | KFunc
    | KAssign
    | KStep(sop: StepOp)
    | KGetValue
    | KGetAddr

  /** The payload of a finsh_node. The VAR/SYSVAR/SYSCALL bits of idtype are the
      constructor of `sym`; `addr` is the ADDRESS bit. */
  datatype Data = Data(kind: Kind, sym: Symbol, value: Word, addr: bool, dtype: nat)

  datatype Tree = Nil | Node(data: Data, child: Tree, sibling: Tree)

  function WithSibling(t: Tree, s: Tree): Tree
    requires t.Node?
  {
    t.(sibling := s)
  }

  function Blank(kind: Kind): Data {
    Data(kind, NoSym, 0, false, DATA_VOID)
  }

  /** The node make_sys_node builds over one or two operand nodes. */
  function Over(kind: Kind, t: Tree, s: Tree): (r: Tree)
    requires t.Node?
  {
    Node(Blank(kind), WithSibling(t, s), Nil)
  }

  function IdNode(sym: Symbol): Tree {
    Node(Blank(KId).(sym := sym), Nil, Nil)
  }

  /** The tree the parser must build for an expression. */
  function Lower(e: Expr, env: Env): (t: Tree)
    ensures t.Node? && t.sibling == Nil
  {
    match e
    case Lit(k, v) => Node(Blank(KLit(k)).(value := v), Nil, Nil)
    case Name(id) => IdNode(SymbolOf(env, id))
    case Neg(x) => Over(KBin(Sub), Node(Blank(KLit(LongLit)), Nil, Nil), Lower(x, env))
    case BitNot(x) => Over(KBitwise, Lower(x, env), Nil)
    case Deref(x) => Over(KGetValue, Lower(x, env), Nil)
    case AddrOf(x) => Over(KGetAddr, Lower(x, env), Nil)
    case Incr(op, x) => Over(KStep(op), Lower(x, env), Nil)
    case Bin(op, x, y) => Over(KBin(op), Lower(x, env), Lower(y, env))
    case Assign(x, y) => Over(KAssign, Lower(x, env), Lower(y, env))
    case Call(f, args) => Over(KFunc, IdNode(SymbolOf(env, f)), LowerArgs(args, env))
  }

  function LowerArgs(args: Args, env: Env): Tree {
    match args
    case End => Nil
    case More(e, t) => WithSibling(Lower(e, env), LowerArgs(t, env))
  }

  function LowerAll(stmts: seq<Expr>, env: Env): Tree {
    if |stmts| == 0 then Nil
    else WithSibling(Lower(stmts[0], env), LowerAll(stmts[1..], env))
  }
}
