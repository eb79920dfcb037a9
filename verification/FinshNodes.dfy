/** The node table of finsh_node.c: sixteen slots whose child and sibling fields
    are the indices of other slots (-1 for NULL), and the two passes that walk it
    in place. */
module FinshNodes {
  import opened FinshOperators
  import opened FinshMachine
  import opened FinshSyntax
  import opened FinshCompiler

  datatype Slot = Slot(data: Data, child: int, sibling: int)

  const Empty: Slot := Slot(Blank(KUnknown), -1, -1)

  /** The slots a tree occupies when its root is slot i. */
  ghost function Slots(tab: seq<Slot>, i: int, t: Tree): set<int>
    decreases t
  {
    match t
    case Nil => {}
    case Node(_, c, s) =>
      if 0 <= i < |tab| then {i} + Slots(tab, tab[i].child, c) + Slots(tab, tab[i].sibling, s) else {}
  }

  ghost predicate Apart(a: set<int>, b: set<int>) {
    forall k :: k in a ==> k !in b
  }

  /** Slot i is the root of a table image of t, no slot used twice. */
  ghost predicate Rep(tab: seq<Slot>, i: int, t: Tree)
    decreases t
  {
    match t
    case Nil => i == -1
    case Node(d, c, s) =>
      0 <= i < |tab| && tab[i].data == d
      && Rep(tab, tab[i].child, c) && Rep(tab, tab[i].sibling, s)
      && i !in Slots(tab, tab[i].child, c) && i !in Slots(tab, tab[i].sibling, s)
      && Apart(Slots(tab, tab[i].child, c), Slots(tab, tab[i].sibling, s))
  }

  /** An image does not depend on slots outside it. */
  lemma {:induction false} Frame(tab: seq<Slot>, tab': seq<Slot>, i: int, t: Tree)
    requires |tab| == |tab'| && Rep(tab, i, t)
    requires forall j :: j in Slots(tab, i, t) && 0 <= j < |tab| ==> tab'[j] == tab[j]
    ensures Rep(tab', i, t) && Slots(tab', i, t) == Slots(tab, i, t)
    decreases t
  {
    match t
    case Nil =>
    case Node(d, c, s) =>
      Frame(tab, tab', tab[i].child, c);
      Frame(tab, tab', tab[i].sibling, s);
  }

  lemma {:induction false} SlotsInTable(tab: seq<Slot>, i: int, t: Tree)
    ensures forall j :: j in Slots(tab, i, t) ==> 0 <= j < |tab|
    decreases t
  {
    match t
    case Nil =>
    case Node(_, c, s) =>
      if 0 <= i < |tab| {
        SlotsInTable(tab, tab[i].child, c);
        SlotsInTable(tab, tab[i].sibling, s);
      }
  }

  lemma Rebuild(tab: seq<Slot>, tab': seq<Slot>, i: int, t: Tree, t': Tree)
    requires t.Node? && t'.Node? && Rep(tab, i, t) && |tab'| == |tab|
    requires tab'[i] == tab[i].(data := t'.data)
    requires Rep(tab', tab[i].child, t'.child) && Rep(tab', tab[i].sibling, t'.sibling)
    requires Slots(tab', tab[i].child, t'.child) == Slots(tab, tab[i].child, t.child)
    requires Slots(tab', tab[i].sibling, t'.sibling) == Slots(tab, tab[i].sibling, t.sibling)
    ensures Rep(tab', i, t') && Slots(tab', i, t') == Slots(tab, i, t)
  {
  }

  /** The tail of finsh_type_check: attributes of one node, after its child's. */
  method SetAttributes(tab: array<Slot>, i: int, addr: bool, ghost c: Tree)
    requires 0 <= i < tab.Length && Rep(tab[..], tab[i].child, c)
    modifies tab
    ensures tab[..] == old(tab[..])[i := old(tab[i]).(data := Mark(old(tab[i]).data, addr, c))]
  {
    var n := tab[i];
    var d := n.data;
    if !(d.kind.KId? && d.sym.CallSym? && !d.addr) {
      d := d.(addr := d.addr || addr);
    }
    if n.child != -1 {
      d := d.(dtype := tab[n.child].data.dtype);
    } else if d.kind.KId? {
      if d.sym.VarSym? || d.sym.SysVarSym? {
        d := d.(dtype := DATA_DWORD);
      }
    } else if d.kind.KLit? {
      d := d.(dtype := DATA_DWORD);
    }
    tab[i] := n.(data := d);
  }

  /** Slots outside `touched` are as they were. */
  ghost predicate Untouched(tab: seq<Slot>, was: seq<Slot>, touched: set<int>) {
    |tab| == |was| && forall j :: 0 <= j < |tab| && j !in touched ==> tab[j] == was[j]
  }

  lemma FrameApart(was: seq<Slot>, tab: seq<Slot>, i: int, t: Tree, touched: set<int>)
    requires Rep(was, i, t) && Untouched(tab, was, touched) && Apart(Slots(was, i, t), touched)
    ensures Rep(tab, i, t) && Slots(tab, i, t) == Slots(was, i, t)
  {
    Frame(was, tab, i, t);
  }

  lemma AnnotateParts(t: Tree, addr: bool)
    ensures t.Nil? ==> Annotate(t, addr) == t
    ensures t.Node? ==>
              var c := Annotate(t.child, ChildAddr(t.data.kind, addr));
              Annotate(t, addr) == Node(Mark(t.data, addr, c), c, Annotate(t.sibling, false))
  {
  }

  lemma NodeParts(tab: seq<Slot>, i: int, t: Tree)
    requires Rep(tab, i, t)
    ensures i == -1 <==> t.Nil?
    ensures t.Node? ==> 0 <= i < |tab| && tab[i].data == t.data
    ensures t.Node? ==>
            var c, s := Slots(tab, tab[i].child, t.child), Slots(tab, tab[i].sibling, t.sibling);
            Rep(tab, tab[i].child, t.child) && Rep(tab, tab[i].sibling, t.sibling)
            && Slots(tab, i, t) == {i} + c + s
            && i !in c && i !in s && Apart(s, c) && Apart(c, s) && Apart(c, {i}) && Apart(s, {i})
  {
  }

  /** finsh_type_check: sets idtype and data_type in place. */
  method TypeCheck(tab: array<Slot>, i: int, addr: bool, ghost t: Tree)
    requires Rep(tab[..], i, t)
    modifies tab
    ensures Rep(tab[..], i, Annotate(t, addr))
    ensures Slots(tab[..], i, Annotate(t, addr)) == old(Slots(tab[..], i, t))
    ensures Untouched(tab[..], old(tab[..]), old(Slots(tab[..], i, t)))
    decreases t
  {
    hide Rep, Slots, Annotate, Mark, ChildAddr, Apart;
    NodeParts(tab[..], i, t);
    AnnotateParts(t, addr);
    if i == -1 { return; }
    ghost var t0 := tab[..];
    var n := tab[i];
    var childAddr := ChildAddr(n.data.kind, addr);
    ghost var c, s := Annotate(t.child, childAddr), Annotate(t.sibling, false);
    ghost var cs, ss := Slots(t0, n.child, t.child), Slots(t0, n.sibling, t.sibling);
    TypeCheck(tab, n.child, childAddr, t.child);
    ghost var t1 := tab[..];
    FrameApart(t0, t1, n.sibling, t.sibling, cs);
    TypeCheck(tab, n.sibling, false, t.sibling);
    ghost var t2 := tab[..];
    FrameApart(t1, t2, n.child, c, ss);
    SetAttributes(tab, i, addr, c);
    FrameApart(t2, tab[..], n.child, c, {i});
    FrameApart(t2, tab[..], n.sibling, s, {i});
    Rebuild(t0, tab[..], i, t, Node(Mark(t.data, addr, c), c, s));
  }

  /** The loop over the parameters of a call node. */
  method CountSiblings(tab: array<Slot>, first: int, ghost t: Tree) returns (n: nat)
    requires Rep(tab[..], first, t)
    ensures n == Siblings(t)
  {
    n := 0;
    var i := first;
    ghost var rest := t;
    while i != -1
      invariant Rep(tab[..], i, rest) && n + Siblings(rest) == Siblings(t)
      decreases rest
    {
      n := n + 1;
      rest := rest.sibling;
      i := tab[i].sibling;
    }
  }

  lemma CodeParts(t: Tree)
    ensures t.Nil? ==> Code(t) == [] && !AnyRejected(t)
    ensures t.Node? ==> Code(t) == Code(t.child) + OwnCode(t.data, t.child) + Code(t.sibling)
    ensures t.Node? ==>
              AnyRejected(t) == (AnyRejected(t.child) || Rejected(t.data, t.child) || AnyRejected(t.sibling))
  {
  }

  /** finsh_compile: bytes written through finsh_compile_pc. */
  class Emitter {
    const text: array<Byte>
    var pc: nat
    var failed: bool

    constructor (buffer: array<Byte>)
      ensures text == buffer && pc == 0 && !failed
    {
      text := buffer;
      pc := 0;
      failed := false;
    }

    /** There is room for the code; the source writes without a check. */
    ghost predicate Room(n: nat)
      reads this
    {
      pc + n <= text.Length
    }

    /** Exactly `code` has been appended since the buffer was `was` and pc `at`. */
    ghost predicate Wrote(was: seq<Byte>, at: nat, code: seq<Byte>)
      reads this, text
    {
      at + |code| == pc <= text.Length == |was|
      && text[..] == was[..at] + code + was[pc..]
    }

    lemma Append(was: seq<Byte>, at: nat, c: seq<Byte>, mid: seq<Byte>, d: seq<Byte>)
      requires at + |c| + |d| == pc <= text.Length == |was| == |mid|
      requires mid == was[..at] + c + was[at + |c|..]
      requires text[..] == mid[..at + |c|] + d + mid[pc..]
      ensures Wrote(was, at, c + d)
    {
      assert mid[..at + |c|] == was[..at] + c;
      assert mid[pc..] == was[pc..];
    }

    method CodeByte(b: Byte)
      requires Room(1)
      modifies this`pc, text
      ensures Wrote(old(text[..]), old(pc), [b])
    {
      text[pc] := b;
      pc := pc + 1;
    }

    method CodeDword(v: Word)
      requires Room(4)
      modifies this`pc, text
      ensures Wrote(old(text[..]), old(pc), Bytes(v))
    {
      text[pc] := ByteOf(v, 0);
      text[pc + 1] := ByteOf(v, 1);
      text[pc + 2] := ByteOf(v, 2);
      text[pc + 3] := ByteOf(v, 3);
      pc := pc + 4;
    }

    /** An opcode with a 32-bit operand. */
    method CodeLoad(op: Byte, v: Word)
      requires Room(5)
      modifies this`pc, text
      ensures Wrote(old(text[..]), old(pc), [op] + Bytes(v))
    {
      CodeByte(op);
      ghost var mid := text[..];
      CodeDword(v);
      Append(old(text[..]), old(pc), [op], mid, Bytes(v));
    }

    method CodeBytes(bs: seq<Byte>)
      requires Room(|bs|)
      modifies this`pc, text
      ensures Wrote(old(text[..]), old(pc), bs)
    {
      var k := 0;
      while k < |bs|
        invariant 0 <= k <= |bs| && pc == old(pc) + k && Room(|bs| - k)
        invariant Wrote(old(text[..]), old(pc), bs[..k])
      {
        ghost var mid := text[..];
        CodeByte(bs[k]);
        Append(old(text[..]), old(pc), bs[..k], mid, [bs[k]]);
        assert bs[..k + 1] == bs[..k] + [bs[k]];
        k := k + 1;
      }
      assert bs[..k] == bs;
    }

    /** The common part of ++ and --. */
    method CodeBump(add: Byte, a: Word, last: Byte)
      requires Room(13)
      modifies this`pc, text
      ensures Wrote(old(text[..]), old(pc), LdValue(a) + Ld(1) + [add, OP_ST_DWORD, last])
    {
      hide Bytes;
      CodeLoad(OP_LD_VALUE_DWORD, a);
      ghost var t1 := text[..];
      CodeLoad(OP_LD_DWORD, 1);
      Append(old(text[..]), old(pc), LdValue(a), t1, Ld(1));
      ghost var t2 := text[..];
      CodeBytes([add, OP_ST_DWORD, last]);
      Append(old(text[..]), old(pc), LdValue(a) + Ld(1), t2, [add, OP_ST_DWORD, last]);
    }

    /** ++ and --, before or after. */
    method CodeStep(op: StepOp, a: Word)
      requires Room(|StepCode(op, a)|)
      modifies this`pc, text
      ensures Wrote(old(text[..]), old(pc), StepCode(op, a))
    {
      var add := if op.PreInc? || op.PostInc? then OP_ADD_DWORD else OP_SUB_DWORD;
      if op.PreInc? || op.PreDec? {
        CodeBump(add, a, OP_LD_VALUE_DWORD_STACK);
      } else {
        CodeLoad(OP_LD_DWORD, a);
        ghost var t1 := text[..];
        CodeBump(add, a, OP_POP);
        Append(old(text[..]), old(pc), Ld(a), t1, LdValue(a) + Ld(1) + [add, OP_ST_DWORD, OP_POP]);
      }
    }

    method CodeSymbol(sym: Symbol, addr: bool)
      requires Room(|SymbolCode(sym, addr)|)
      modifies this`pc, text
      ensures Wrote(old(text[..]), old(pc), SymbolCode(sym, addr))
    {
      match sym {
        case CallSym(f) => CodeLoad(OP_LD_DWORD, f);
        case SysVarSym(a, _) => CodeLoad(if addr then OP_LD_DWORD else OP_LD_VALUE_DWORD, a);
        case VarSym(a) => CodeLoad(if addr then OP_LD_DWORD else OP_LD_VALUE_DWORD, a);
        case NoSym =>
      }
    }

    /** The switch of finsh_compile for the current node. */
    method CodeNode(tab: array<Slot>, i: int, ghost t: Tree)
      requires tab as object != text
      requires t.Node? && Rep(tab[..], i, t) && Room(|OwnCode(t.data, t.child)|)
      modifies this`pc, this`failed, text
      ensures Wrote(old(text[..]), old(pc), OwnCode(t.data, t.child))
      ensures failed == (old(failed) || Rejected(t.data, t.child))
    {
      hide SymbolCode, StepCode, Bytes, VarAddr;
      var n := tab[i];
      var d := n.data;
      match d.kind {
        case KId =>
          CodeSymbol(d.sym, d.addr);
        case KLit(_) => CodeLoad(OP_LD_DWORD, d.value);
        case KBin(op) => if d.dtype == DATA_DWORD { CodeByte(Opcode(op)); }
        case KBitwise => if d.dtype == DATA_DWORD { CodeByte(OP_BITWISE_DWORD); }
        case KFunc =>
          var parameters := 0;
          if n.child != -1 {
            parameters := CountSiblings(tab, tab[n.child].sibling, t.child.sibling);
          }
          CodeBytes([OP_SYSCALL, parameters % 256]);
        case KAssign =>
          if n.child != -1 && (tab[n.child].data.kind.KId? || tab[n.child].data.kind.KGetValue?) {
            if tab[n.child].data.dtype == DATA_DWORD {
              CodeBytes([OP_ST_DWORD, OP_LD_VALUE_DWORD_STACK]);
            } else {
              failed := true;
            }
          }
        case KStep(op) =>
          if n.child != -1 && tab[n.child].data.kind.KId? && d.dtype == DATA_DWORD {
            CodeStep(op, VarAddr(tab[n.child].data.sym));
          }
        case KGetValue =>
          if !d.addr && d.dtype == DATA_DWORD { CodeByte(OP_LD_VALUE_DWORD_STACK); }
        case KGetAddr =>
        case KUnknown => failed := true;
      }
    }

    /** finsh_compile: child, then the node, then the siblings. */
    method Compile(tab: array<Slot>, i: int, ghost t: Tree)
      requires tab as object != text
      requires Rep(tab[..], i, t) && Room(|Code(t)|)
      modifies this`pc, this`failed, text
      ensures Wrote(old(text[..]), old(pc), Code(t))
      ensures failed == (old(failed) || AnyRejected(t))
      decreases t
    {
      hide OwnCode, Rejected, Code, AnyRejected;
      CodeParts(t);
      if i == -1 { return; }
      var n := tab[i];
      Compile(tab, n.child, t.child);
      ghost var t1 := text[..];
      CodeNode(tab, i, t);
      Append(old(text[..]), old(pc), Code(t.child), t1, OwnCode(t.data, t.child));
      ghost var t2 := text[..];
      Compile(tab, n.sibling, t.sibling);
      Append(old(text[..]), old(pc), Code(t.child) + OwnCode(t.data, t.child), t2, Code(t.sibling));
    }
  }

  /** Nodes for which the compiler reports an error. */
  predicate Rejected(d: Data, child: Tree) {
    d.kind.KUnknown?
    || (d.kind.KAssign? && child.Node? && (child.data.kind.KId? || child.data.kind.KGetValue?)
        && child.data.dtype != DATA_DWORD)
  }

  predicate AnyRejected(t: Tree) {
    match t
    case Nil => false
    case Node(d, c, s) => AnyRejected(c) || Rejected(d, c) || AnyRejected(s)
  }
}
