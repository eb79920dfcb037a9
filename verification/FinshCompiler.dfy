/** finsh_type_check and finsh_compile, and the proof that the code they emit
    computes what the expression means. */
module FinshCompiler {
  import opened FinshOperators
  import opened FinshMachine
  import opened FinshSyntax

  // ------------------------------------------------------------- type check

  /** finsh_type_check on values: `addr` says the parent wants an address. */
  function Annotate(t: Tree, addr: bool): (r: Tree)
    ensures t.Node? == r.Node?
  {
    match t
    case Nil => Nil
    case Node(d, c, s) =>
      var c' := Annotate(c, ChildAddr(d.kind, addr));
      var s' := Annotate(s, false);
      Node(Mark(d, addr, c'), c', s')
  }

  function ChildAddr(k: Kind, addr: bool): bool {
    if k.KAssign? || k == KStep(PreInc) || k == KStep(PreDec) || k.KGetAddr? then true
    else if k.KGetValue? && addr then false
    else addr
  }

  /** The attributes set on the current node once its child is done. */
  function Mark(d: Data, addr: bool, child: Tree): Data {
    d.(addr := d.addr || (addr && !(d.kind.KId? && d.sym.CallSym? && !d.addr)),
       dtype := if child.Node? then child.data.dtype else LeafType(d))
  }

  function LeafType(d: Data): nat {
    if d.kind.KId? && (d.sym.VarSym? || d.sym.SysVarSym?) then DATA_DWORD
    else if d.kind.KLit? then DATA_DWORD
    else d.dtype
  }

  // ------------------------------------------------------------------- code

  function Bytes(v: Word): (bs: seq<Byte>)
    ensures |bs| == 4
  {
    [ByteOf(v, 0), ByteOf(v, 1), ByteOf(v, 2), ByteOf(v, 3)]
  }

  function Opcode(op: BinOp): Byte {
    match op
    case Add => OP_ADD_DWORD
    case Sub => OP_SUB_DWORD
    case Mul => OP_MUL_DWORD
    case Div => OP_DIV_DWORD
    case Mod => OP_MOD_DWORD
    case And => OP_AND_DWORD
    case Or => OP_OR_DWORD
    case Xor => OP_XOR_DWORD
    case Shl => OP_SHL_DWORD
    case Shr => OP_SHR_DWORD
  }

  function Ld(v: Word): seq<Byte> { [OP_LD_DWORD] + Bytes(v) }

  function LdValue(a: Word): seq<Byte> { [OP_LD_VALUE_DWORD] + Bytes(a) }

  function SymbolCode(sym: Symbol, addr: bool): seq<Byte> {
    match sym
    case CallSym(f) => Ld(f)
    case SysVarSym(a, _) => if addr then Ld(a) else LdValue(a)
    case VarSym(a) => if addr then Ld(a) else LdValue(a)
    case NoSym => []
  }

  /** The address ++ and -- use: the operand's id is read as a finsh_var. */
  function VarAddr(sym: Symbol): Word {
    match sym
    case VarSym(a) => a
    case SysVarSym(_, alias) => alias
    case _ => 0
  }

  function StepCode(op: StepOp, a: Word): seq<Byte> {
    var add := if op.PreInc? || op.PostInc? then OP_ADD_DWORD else OP_SUB_DWORD;
    if op.PreInc? || op.PreDec? then LdValue(a) + Ld(1) + [add, OP_ST_DWORD, OP_LD_VALUE_DWORD_STACK]
    else Ld(a) + (LdValue(a) + Ld(1) + [add, OP_ST_DWORD, OP_POP])
  }

  function Siblings(t: Tree): nat {
    match t case Nil => 0 case Node(_, _, s) => 1 + Siblings(s)
  }

  /** The bytes finsh_compile emits for a node itself, after its child. */
  function OwnCode(d: Data, child: Tree): seq<Byte> {
    match d.kind
    case KId => SymbolCode(d.sym, d.addr)
    case KLit(_) => Ld(d.value)
    case KBin(op) => if d.dtype == DATA_DWORD then [Opcode(op)] else []
    case KBitwise => if d.dtype == DATA_DWORD then [OP_BITWISE_DWORD] else []
    case KFunc => [OP_SYSCALL, (if child.Node? then Siblings(child.sibling) else 0) % 256]
    case KAssign =>
      if child.Node? && (child.data.kind.KId? || child.data.kind.KGetValue?) && child.data.dtype == DATA_DWORD
      then [OP_ST_DWORD, OP_LD_VALUE_DWORD_STACK] else []
    case KStep(op) =>
      if child.Node? && child.data.kind.KId? && d.dtype == DATA_DWORD
      then StepCode(op, VarAddr(child.data.sym)) else []
    case KGetValue => if !d.addr && d.dtype == DATA_DWORD then [OP_LD_VALUE_DWORD_STACK] else []
    case KGetAddr => []
    case KUnknown => []
  }

  function Code(t: Tree): seq<Byte> {
    match t
    case Nil => []
    case Node(d, c, s) => Code(c) + OwnCode(d, c) + Code(s)
  }

  /** finsh_compiler_run: statements in order, a POP between two of them. */
  function ProgramCode(t: Tree): seq<Byte> {
    match t
    case Nil => []
    case Node(d, c, s) =>
      Code(WithSibling(t, Nil)) + if s.Nil? then [] else [OP_POP] + ProgramCode(s)
  }

  // -------------------------------------------- the fragment the code honours

  /** The data type the type check gives an expression: that of its first leaf. */
  function Head(e: Expr, env: Env): nat {
    match e
    case Lit(_, _) => DATA_DWORD
    case Name(id) => NameType(SymbolOf(env, id))
    case Neg(_) => DATA_DWORD
    case BitNot(x) => Head(x, env)
    case Deref(x) => Head(x, env)
    case AddrOf(x) => Head(x, env)
    case Incr(_, x) => Head(x, env)
    case Bin(_, x, _) => Head(x, env)
    case Assign(x, _) => Head(x, env)
    case Call(f, _) => NameType(SymbolOf(env, f))
  }

  function NameType(s: Symbol): nat {
    if s.VarSym? || s.SysVarSym? then DATA_DWORD else DATA_VOID
  }

  predicate Lvalue(e: Expr, env: Env) {
    match e
    case Name(id) => var s := SymbolOf(env, id); s.VarSym? || s.SysVarSym?
    case Deref(_) => true
    case _ => false
  }

  /** Expressions the compiler handles: lvalues where an address is needed, ++ and
      -- on shell variables, and no operator whose first operand starts with a
      call (such a node gets the type VOID and no opcode). */
  predicate WellFormed(e: Expr, env: Env) {
    match e
    case Lit(_, _) => true
    case Name(id) => !SymbolOf(env, id).NoSym?
    case Neg(x) => WellFormed(x, env)
    case BitNot(x) => WellFormed(x, env) && Head(x, env) == DATA_DWORD
    case Deref(x) => WellFormed(x, env) && Head(x, env) == DATA_DWORD
    case AddrOf(x) => WellFormed(x, env) && Lvalue(x, env)
    case Incr(_, x) => x.Name? && SymbolOf(env, x.id).VarSym?
    case Bin(_, x, y) => WellFormed(x, env) && WellFormed(y, env) && Head(x, env) == DATA_DWORD
    case Assign(x, y) => WellFormed(x, env) && WellFormed(y, env) && Lvalue(x, env)
    case Call(f, args) => SymbolOf(env, f).CallSym? && Count(args) <= CALL_MAX && WellFormedArgs(args, env)
  }

  predicate WellFormedArgs(args: Args, env: Env) {
    match args
    case End => true
    case More(e, t) => WellFormed(e, env) && WellFormedArgs(t, env)
  }

  // ------------------------------------------------- what the type check does

  function ValueCode(e: Expr, env: Env): seq<Byte> {
    Code(Annotate(Lower(e, env), false))
  }

  function AddrCode(e: Expr, env: Env): seq<Byte> {
    Code(Annotate(Lower(e, env), true))
  }

  function ArgsCode(args: Args, env: Env): seq<Byte> {
    Code(Annotate(LowerArgs(args, env), false))
  }

  lemma CodeWithSibling(t: Tree, s: Tree)
    requires t.Node? && t.sibling == Nil
    ensures Code(WithSibling(t, s)) == Code(t) + Code(s)
  {
    assert Code(t) == Code(t.child) + OwnCode(t.data, t.child);
  }

  lemma {:induction false} HeadIsType(e: Expr, env: Env, addr: bool)
    ensures Annotate(Lower(e, env), addr).data.dtype == Head(e, env)
  {
    match e
    case Lit(_, _) =>
    case Name(_) =>
    case Neg(_) =>
    case BitNot(x) => HeadIsType(x, env, addr);
    case Deref(x) => HeadIsType(x, env, false); HeadIsType(x, env, addr);
    case AddrOf(x) => HeadIsType(x, env, true);
    case Incr(op, x) => HeadIsType(x, env, ChildAddr(KStep(op), addr));
    case Bin(_, x, _) => HeadIsType(x, env, addr);
    case Assign(x, _) => HeadIsType(x, env, true);
    case Call(_, _) =>
  }

  lemma AnnotateOver(k: Kind, t: Tree, s: Tree, addr: bool)
    requires t.Node? && t.sibling == Nil
    ensures var c := Annotate(t, ChildAddr(k, addr));
            var c' := WithSibling(c, Annotate(s, false));
            c.sibling == Nil && Annotate(Over(k, t, s), addr) == Node(Mark(Blank(k), addr, c'), c', Nil)
  {
    hide ChildAddr;
    assert Mark(t.data, ChildAddr(k, addr), Annotate(t.child, ChildAddr(t.data.kind, ChildAddr(k, addr))))
           == Annotate(t, ChildAddr(k, addr)).data;
  }

  /** Annotated node over its operands. */
  lemma OverCode(k: Kind, t: Tree, s: Tree, addr: bool)
    requires t.Node? && t.sibling == Nil
    ensures var c := Annotate(t, ChildAddr(k, addr));
            var c' := WithSibling(c, Annotate(s, false));
            c.sibling == Nil && Annotate(Over(k, t, s), addr) == Node(Mark(Blank(k), addr, c'), c', Nil)
            && Code(Annotate(Over(k, t, s), addr))
               == Code(c) + Code(Annotate(s, false)) + OwnCode(Mark(Blank(k), addr, c'), c')
  {
    hide OwnCode, Mark, ChildAddr;
    AnnotateOver(k, t, s, addr);
    var c := Annotate(t, ChildAddr(k, addr));
    CodeWithSibling(c, Annotate(s, false));
  }

  lemma {:induction false} SiblingsOfArgs(args: Args, env: Env)
    ensures Siblings(Annotate(LowerArgs(args, env), false)) == Count(args)
  {
    match args
    case End =>
    case More(e, t) => SiblingsOfArgs(t, env);
  }

  lemma CodeOfLeaf(d: Data)
    requires d.dtype == DATA_VOID
    ensures Code(Annotate(Node(d, Nil, Nil), false)) == OwnCode(Mark(d, false, Nil), Nil)
    ensures Code(Annotate(Node(d, Nil, Nil), true)) == OwnCode(Mark(d, true, Nil), Nil)
  {
  }

  // The code of each well-formed shape in terms of the code of its parts.

  lemma CodeOfLit(k: LitKind, v: Word, env: Env)
    ensures ValueCode(Lit(k, v), env) == Ld(v)
  {
    CodeOfLeaf(Blank(KLit(k)).(value := v));
  }

  lemma CodeOfName(id: string, env: Env)
    ensures ValueCode(Name(id), env) == SymbolCode(SymbolOf(env, id), false)
    ensures AddrCode(Name(id), env) == SymbolCode(SymbolOf(env, id), true)
  {
    CodeOfLeaf(IdNode(SymbolOf(env, id)).data);
  }

  lemma CodeOfNeg(x: Expr, env: Env)
    ensures ValueCode(Neg(x), env) == Ld(0) + ValueCode(x, env) + [OP_SUB_DWORD]
  {
    CodeOfLeaf(Blank(KLit(LongLit)));
    OverCode(KBin(Sub), Node(Blank(KLit(LongLit)), Nil, Nil), Lower(x, env), false);
  }

  lemma CodeOfUnary(x: Expr, env: Env)
    ensures ValueCode(BitNot(x), env)
            == ValueCode(x, env) + if Head(x, env) == DATA_DWORD then [OP_BITWISE_DWORD] else []
    ensures ValueCode(Deref(x), env)
            == ValueCode(x, env) + if Head(x, env) == DATA_DWORD then [OP_LD_VALUE_DWORD_STACK] else []
  {
    HeadIsType(x, env, false);
    OverCode(KBitwise, Lower(x, env), Nil, false);
    OverCode(KGetValue, Lower(x, env), Nil, false);
  }

  lemma CodeOfAddress(x: Expr, env: Env)
    ensures ValueCode(AddrOf(x), env) == AddrCode(x, env)
    ensures AddrCode(Deref(x), env) == ValueCode(x, env)
  {
    OverCode(KGetAddr, Lower(x, env), Nil, false);
    OverCode(KGetValue, Lower(x, env), Nil, true);
  }

  lemma CodeOfIncr(op: StepOp, id: string, env: Env)
    requires NameType(SymbolOf(env, id)) == DATA_DWORD
    ensures ValueCode(Incr(op, Name(id)), env)
            == SymbolCode(SymbolOf(env, id), op.PreInc? || op.PreDec?) + StepCode(op, VarAddr(SymbolOf(env, id)))
  {
    CodeOfName(id, env);
    OverCode(KStep(op), Lower(Name(id), env), Nil, false);
  }

  lemma CodeOfBin(op: BinOp, x: Expr, y: Expr, env: Env)
    ensures ValueCode(Bin(op, x, y), env)
            == ValueCode(x, env) + ValueCode(y, env) + if Head(x, env) == DATA_DWORD then [Opcode(op)] else []
  {
    HeadIsType(x, env, false);
    OverCode(KBin(op), Lower(x, env), Lower(y, env), false);
  }

  lemma CodeOfAssign(x: Expr, y: Expr, env: Env)
    requires WellFormed(x, env) && Lvalue(x, env)
    ensures ValueCode(Assign(x, y), env)
            == AddrCode(x, env) + ValueCode(y, env) + [OP_ST_DWORD, OP_LD_VALUE_DWORD_STACK]
  {
    HeadIsType(x, env, true);
    OverCode(KAssign, Lower(x, env), Lower(y, env), false);
  }

  lemma CodeOfCall(f: string, args: Args, env: Env)
    requires SymbolOf(env, f).CallSym? && Count(args) <= CALL_MAX
    ensures ValueCode(Call(f, args), env)
            == Ld(SymbolOf(env, f).func) + ArgsCode(args, env) + [OP_SYSCALL, Count(args)]
  {
    hide Code;
    CodeOfName(f, env);
    SiblingsOfArgs(args, env);
    OverCode(KFunc, IdNode(SymbolOf(env, f)), LowerArgs(args, env), false);
  }

  lemma CodeOfNoArgs(env: Env)
    ensures ArgsCode(End, env) == []
  {
  }

  lemma CodeOfArgs(e: Expr, t: Args, env: Env)
    ensures ArgsCode(More(e, t), env) == ValueCode(e, env) + ArgsCode(t, env)
  {
    CodeWithSibling(Annotate(Lower(e, env), false), Annotate(LowerArgs(t, env), false));
  }
}
