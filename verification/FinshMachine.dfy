/** The finsh virtual machine: 32-bit words in byte-addressed memory, the DWORD
    operators, and the fetch/execute loop over a 128-byte text segment.

    The class Vm is the machine of finsh_vm.c and finsh_ops.c: global arrays and
    pointers changed in place. The function Exec is its meaning on values. */
module FinshMachine {
  import opened Basics
  import opened FinshOperators

  const TEXT_MAX: nat := 128
  const STACK_MAX: nat := 64
  const CALL_MAX: nat := 16

  type Byte = x: int | 0 <= x < 256

  // ---------------------------------------------------------------- memory

  /** Memory the shell may touch through variables and pointers. Bytes that were
      never written read as zero, as in a cleared data segment. */
  type Memory = map<Word, Byte>

  function Load8(m: Memory, a: Word): Byte {
    if a in m then m[a] else 0
  }

  function At(a: Word, k: nat): Word {
    (a + k) % 0x1_0000_0000
  }

  /** FINSH_SET32: the k-th byte of a word, least significant first. */
  function ByteOf(v: Word, k: nat): Byte
    requires k < 4
  {
    if k == 0 then v % 256
    else if k == 1 then v / 0x100 % 256
    else if k == 2 then v / 0x1_0000 % 256
    else v / 0x100_0000
  }

  /** How many values n bytes can take. */
  function Values256(n: nat): nat {
    if n == 0 then 1 else 0x100 * Values256(n - 1)
  }

  /** The number the bytes stand for, least significant first. */
  function Number(bs: seq<Byte>): (r: nat)
    ensures r < Values256(|bs|)
  {
    if |bs| == 0 then 0 else bs[0] + 0x100 * Number(bs[1..])
  }

  /** FINSH_GET32. */
  function Join(b0: Byte, b1: Byte, b2: Byte, b3: Byte): Word {
    assert Values256(4) == WORD;
    Number([b0, b1, b2, b3])
  }

  function Load32(m: Memory, a: Word): Word {
    Join(Load8(m, a), Load8(m, At(a, 1)), Load8(m, At(a, 2)), Load8(m, At(a, 3)))
  }

  function Store32(m: Memory, a: Word, v: Word): Memory {
    m[a := ByteOf(v, 0)][At(a, 1) := ByteOf(v, 1)][At(a, 2) := ByteOf(v, 2)][At(a, 3) := ByteOf(v, 3)]
  }

  lemma JoinIs(b0: Byte, b1: Byte, b2: Byte, b3: Byte)
    ensures Join(b0, b1, b2, b3) == b0 + 0x100 * (b1 + 0x100 * (b2 + 0x100 * b3))
  {
    assert [b0, b1, b2, b3][1..] == [b1, b2, b3] && [b1, b2, b3][1..] == [b2, b3] && [b2, b3][1..] == [b3];
    assert Number([b3]) == b3;
    assert Number([b2, b3]) == b2 + 0x100 * b3;
    assert Number([b1, b2, b3]) == b1 + 0x100 * (b2 + 0x100 * b3);
  }

  lemma JoinBytes(v: Word)
    ensures Join(ByteOf(v, 0), ByteOf(v, 1), ByteOf(v, 2), ByteOf(v, 3)) == v
  {
    JoinIs(ByteOf(v, 0), ByteOf(v, 1), ByteOf(v, 2), ByteOf(v, 3));
    var q1 := v / 0x100;
    var q2 := v / 0x1_0000;
    assert q2 == q1 / 0x100;
    assert v / 0x100_0000 == q2 / 0x100;
  }

  /** A word read back from where it was just stored is the word stored, also
      when the four bytes run over the end of the address space. */
  lemma LoadAfterStore(m: Memory, a: Word, v: Word)
    ensures Load32(Store32(m, a, v), a) == v
  {
    JoinBytes(v);
    assert a != At(a, 1) && a != At(a, 2) && a != At(a, 3);
    assert At(a, 1) != At(a, 2) && At(a, 1) != At(a, 3) && At(a, 2) != At(a, 3);
  }

  /** The four bytes of a word lie from its address on, least significant first. */
  lemma StoreBytes(m: Memory, a: Word, v: Word)
    ensures var s := Store32(m, a, v);
            Load8(s, a) == v % 0x100 && Load8(s, At(a, 1)) == v / 0x100 % 0x100
            && Load8(s, At(a, 2)) == v / 0x1_0000 % 0x100 && Load8(s, At(a, 3)) == v / 0x100_0000 % 0x100
  {
    assert a != At(a, 1) && a != At(a, 2) && a != At(a, 3);
    assert At(a, 1) != At(a, 2) && At(a, 1) != At(a, 3) && At(a, 2) != At(a, 3);
    assert v / 0x100_0000 == v / 0x100_0000 % 0x100;
  }

  /** A store changes nothing outside its four bytes. */
  lemma StoreElsewhere(m: Memory, a: Word, v: Word, c: Word)
    requires c != a && c != At(a, 1) && c != At(a, 2) && c != At(a, 3)
    ensures Load8(Store32(m, a, v), c) == Load8(m, c)
  {
  }

  // --------------------------------------------------------------- opcodes

  const OP_NOOP: Byte := 0x00
  const OP_ADD_DWORD: Byte := 0x03
  const OP_SUB_DWORD: Byte := 0x06
  const OP_DIV_DWORD: Byte := 0x09
  const OP_MOD_DWORD: Byte := 0x0C
  const OP_MUL_DWORD: Byte := 0x0F
  const OP_AND_DWORD: Byte := 0x12
  const OP_OR_DWORD: Byte := 0x15
  const OP_XOR_DWORD: Byte := 0x18
  const OP_BITWISE_DWORD: Byte := 0x1B
  const OP_SHL_DWORD: Byte := 0x1E
  const OP_SHR_DWORD: Byte := 0x21
  const OP_LD_DWORD: Byte := 0x24
  const OP_LD_VALUE_DWORD: Byte := 0x27
  const OP_ST_DWORD: Byte := 0x2A
  const OP_POP: Byte := 0x2B
  const OP_SYSCALL: Byte := 0x2C
  const OP_LD_VALUE_DWORD_STACK: Byte := 0x2F

  /** The binary rows of op_table. */
  function BinaryOf(op: Byte): Option<BinOp> {
    if op == OP_ADD_DWORD then Some(Add)
    else if op == OP_SUB_DWORD then Some(Sub)
    else if op == OP_DIV_DWORD then Some(Div)
    else if op == OP_MOD_DWORD then Some(Mod)
    else if op == OP_MUL_DWORD then Some(Mul)
    else if op == OP_AND_DWORD then Some(And)
    else if op == OP_OR_DWORD then Some(Or)
    else if op == OP_XOR_DWORD then Some(Xor)
    else if op == OP_SHL_DWORD then Some(Shl)
    else if op == OP_SHR_DWORD then Some(Shr)
    else None
  }

  /** The DWORD rows of the source's table, by their numbers. */
  predicate Row(op: Byte, o: BinOp) {
    match o
    case Add => op == 0x03
    case Sub => op == 0x06
    case Div => op == 0x09
    case Mod => op == 0x0C
    case Mul => op == 0x0F
    case And => op == 0x12
    case Or => op == 0x15
    case Xor => op == 0x18
    case Shl => op == 0x1E
    case Shr => op == 0x21
  }

  lemma BinaryRow(op: Byte, o: BinOp)
    ensures BinaryOf(op) == Some(o) <==> Row(op, o)
  {
  }

  /** Whatever row an opcode stands in, it computes the operator of that row. */
  lemma RowComputes(op: Byte, a: Word, b: Word)
    requires BinaryOf(op).Some?
    ensures var r := Apply(BinaryOf(op).value, a, b);
            forall o :: Row(op, o) ==> (r.Some? <==> Defined(o, a, b)) && (r.Some? ==> Computes(o, a, b, r.value))
  {
    hide Apply, Computes, Defined, Row, BinaryOf;
    forall o | Row(op, o) ensures BinaryOf(op) == Some(o) { BinaryRow(op, o); }
    ApplyComputes(BinaryOf(op).value, a, b);
  }

  // ---------------------------------------------------- machine on values

  /** A system call: code the shell only reaches through its address. */
  type Syscall = (Word, seq<Word>, Memory) -> (Word, Memory)

  datatype State = State(pc: nat, stack: seq<Word>, mem: Memory)

  function Operand(text: seq<Byte>, pc: nat): Word
    requires pc + 5 <= |text|
  {
    Join(text[pc + 1], text[pc + 2], text[pc + 3], text[pc + 4])
  }

  /** One turn of the loop in finsh_vm_run. None is a run the hardware does not
      define: a read past the text segment, a stack out of bounds, an undefined
      operator result, or an opcode outside the DWORD rows. */
  function Step(text: seq<Byte>, s: State, sys: Syscall): (r: Option<State>)
    requires |text| == TEXT_MAX && s.pc < TEXT_MAX
    ensures r.Some? ==> s.pc < r.value.pc <= TEXT_MAX && |r.value.stack| <= |s.stack| + 1
  {
    var op := text[s.pc];
    var n := |s.stack|;
    if op == OP_NOOP then
      Some(s.(pc := s.pc + 1))
    else if BinaryOf(op).Some? then
      if n < 2 then None
      else
        var r := Apply(BinaryOf(op).value, s.stack[n - 2], s.stack[n - 1]);
        if r.None? then None
        else Some(State(s.pc + 1, s.stack[..n - 2] + [r.value], s.mem))
    else if op == OP_BITWISE_DWORD then
      if n < 1 then None
      else Some(State(s.pc + 1, s.stack[..n - 1] + [Complement(s.stack[n - 1])], s.mem))
    else if op == OP_LD_DWORD then
      if s.pc + 5 > TEXT_MAX || n == STACK_MAX then None
      else Some(State(s.pc + 5, s.stack + [Operand(text, s.pc)], s.mem))
    else if op == OP_LD_VALUE_DWORD then
      if s.pc + 5 > TEXT_MAX || n == STACK_MAX then None
      else Some(State(s.pc + 5, s.stack + [Load32(s.mem, Operand(text, s.pc))], s.mem))
    else if op == OP_LD_VALUE_DWORD_STACK then
      if n < 1 then None
      else Some(State(s.pc + 1, s.stack[..n - 1] + [Load32(s.mem, s.stack[n - 1])], s.mem))
    else if op == OP_ST_DWORD then
      if n < 2 then None
      else Some(State(s.pc + 1, s.stack[..n - 1], Store32(s.mem, s.stack[n - 2], s.stack[n - 1])))
    else if op == OP_POP then
      if n < 1 then None
      else Some(State(s.pc + 1, s.stack[..n - 1], s.mem))
    else if op == OP_SYSCALL then
      if s.pc + 2 > TEXT_MAX then None
      else
        var args := text[s.pc + 1];
        if args > CALL_MAX || n < args + 1 then None
        else
          var r := sys(s.stack[n - args - 1], s.stack[n - args..], s.mem);
          Some(State(s.pc + 2, s.stack[..n - args - 1] + [r.0], r.1))
    else None
  }

  lemma StepBinary(text: seq<Byte>, s: State, sys: Syscall)
    requires |text| == TEXT_MAX && s.pc < TEXT_MAX && BinaryOf(text[s.pc]).Some?
    ensures var op, n := BinaryOf(text[s.pc]).value, |s.stack|;
            Step(text, s, sys)
            == if n < 2 || Apply(op, s.stack[n - 2], s.stack[n - 1]).None? then None
               else Some(State(s.pc + 1, s.stack[..n - 2] + [Apply(op, s.stack[n - 2], s.stack[n - 1]).value], s.mem))
  {
    hide Apply, Load32, Store32, Complement, Operand;
    assert BinaryOf(OP_NOOP).None?;
  }

  /** The whole run: until pc leaves the text segment. */
  function Exec(text: seq<Byte>, s: State, sys: Syscall): (r: Option<State>)
    requires |text| == TEXT_MAX
    decreases TEXT_MAX - s.pc
  {
    if s.pc >= TEXT_MAX then Some(s)
    else
      var t := Step(text, s, sys);
      if t.None? then None else Exec(text, t.value, sys)
  }

  /** The cleared tail of the text segment does nothing. */
  lemma {:induction false} ExecNoops(text: seq<Byte>, s: State, sys: Syscall)
    requires |text| == TEXT_MAX && s.pc <= TEXT_MAX
    requires forall i :: s.pc <= i < TEXT_MAX ==> text[i] == OP_NOOP
    ensures Exec(text, s, sys) == Some(s.(pc := TEXT_MAX))
    decreases TEXT_MAX - s.pc
  {
    if s.pc < TEXT_MAX {
      ExecNoops(text, s.(pc := s.pc + 1), sys);
    }
  }

  // ----------------------------------------------------- machine in place

  /** finsh_vm_stack, text_segment, finsh_sp, finsh_pc and the memory behind
      the pointers. */
  class Vm {
    const text: array<Byte>
    const stack: array<Word>
    var sp: nat
    var pc: nat
    var mem: Memory

    ghost predicate Valid()
      reads this
    {
      text.Length == TEXT_MAX && stack.Length == STACK_MAX && sp <= STACK_MAX
    }

    ghost function View(): State
      requires Valid()
      reads this, stack
    {
      State(pc, stack[..sp], mem)
    }

    constructor (m: Memory)
      ensures Valid() && fresh(text) && fresh(stack)
      ensures View() == State(0, [], m)
      ensures text[..] == seq(TEXT_MAX, _ => 0)
    {
      text := new Byte[TEXT_MAX](_ => 0);
      stack := new Word[STACK_MAX](_ => 0);
      sp, pc, mem := 0, 0, m;
    }

    /** What an opcode body promises: with pc already past the opcode byte, it
        takes the state `from` (whose pc is at that byte) where Step does. */
    ghost predicate Took(from: State, sys: Syscall, ok: bool)
      requires Valid() && from.pc < TEXT_MAX
      reads this, text, stack
    {
      var t := Step(text[..], from, sys);
      ok == t.Some? && (ok ==> View() == t.value)
    }

    ghost predicate At(op: Byte)
      reads this, text
    {
      Valid() && 0 < pc <= TEXT_MAX && text[pc - 1] == op
    }

    ghost function Here(): State
      requires Valid() && 0 < pc
      reads this, stack
    {
      State(pc - 1, stack[..sp], mem)
    }

    /** OP_BIN_DWORD. */
    method BinDword(op: Byte, sys: Syscall) returns (ok: bool)
      requires At(op) && BinaryOf(op).Some?
      modifies this`sp, stack
      ensures Valid() && Took(old(Here()), sys, ok)
      ensures forall o :: Row(op, o) ==>
                            (ok <==> old(sp) >= 2 && Defined(o, old(stack[sp - 2]), old(stack[sp - 1])))
      ensures ok ==> sp == old(sp) - 1
      ensures forall o :: ok && Row(op, o) ==> Computes(o, old(stack[sp - 2]), old(stack[sp - 1]), stack[sp - 1])
    {
      hide Apply, Load32, Store32, Complement, Computes, Defined, Row, BinaryOf, Step;
      StepBinary(text[..], Here(), sys);
      if sp < 2 { return false; }
      RowComputes(op, stack[sp - 2], stack[sp - 1]);
      var r := Apply(BinaryOf(op).value, stack[sp - 2], stack[sp - 1]);
      if r.None? { return false; }
      stack[sp - 2] := r.value;
      sp := sp - 1;
      assert stack[..sp] == old(stack[..sp])[..sp - 1] + [r.value];
      return true;
    }

    method BitwiseDword(sys: Syscall) returns (ok: bool)
      requires At(OP_BITWISE_DWORD)
      modifies stack
      ensures Valid() && Took(old(Here()), sys, ok)
      ensures ok <==> old(sp) >= 1
      ensures ok ==> Flipped(old(stack[sp - 1]), stack[sp - 1])
    {
      hide Apply, Load32, Store32, Complement, Flipped;
      if sp < 1 { return false; }
      ComplementFlips(stack[sp - 1]);
      stack[sp - 1] := Complement(stack[sp - 1]);
      assert stack[..sp] == old(stack[..sp])[..sp - 1] + [stack[sp - 1]];
      return true;
    }

    method LdDword(sys: Syscall) returns (ok: bool)
      requires At(OP_LD_DWORD)
      modifies this, stack
      ensures Valid() && Took(old(Here()), sys, ok)
    {
      hide Apply, Load32, Store32, Complement;
      if pc + 4 > TEXT_MAX || sp == STACK_MAX { return false; }
      stack[sp] := Join(text[pc], text[pc + 1], text[pc + 2], text[pc + 3]);
      sp := sp + 1;
      pc := pc + 4;
      return true;
    }

    method LdValueDword(sys: Syscall) returns (ok: bool)
      requires At(OP_LD_VALUE_DWORD)
      modifies this, stack
      ensures Valid() && Took(old(Here()), sys, ok)
    {
      hide Apply, Load32, Store32, Complement;
      if pc + 4 > TEXT_MAX || sp == STACK_MAX { return false; }
      stack[sp] := Load32(mem, Join(text[pc], text[pc + 1], text[pc + 2], text[pc + 3]));
      sp := sp + 1;
      pc := pc + 4;
      return true;
    }

    method LdValueDwordStack(sys: Syscall) returns (ok: bool)
      requires At(OP_LD_VALUE_DWORD_STACK)
      modifies stack
      ensures Valid() && Took(old(Here()), sys, ok)
    {
      hide Apply, Load32, Store32, Complement;
      if sp < 1 { return false; }
      var v := Load32(mem, stack[sp - 1]);
      stack[sp - 1] := v;
      assert stack[..sp] == old(stack[..sp])[..sp - 1] + [v];
      return true;
    }

    method StDword(sys: Syscall) returns (ok: bool)
      requires At(OP_ST_DWORD)
      modifies this
      ensures Valid() && Took(old(Here()), sys, ok)
    {
      hide Apply, Load32, Store32, Complement;
      if sp < 2 { return false; }
      mem := Store32(mem, stack[sp - 2], stack[sp - 1]);
      sp := sp - 1;
      return true;
    }

    method Pop(sys: Syscall) returns (ok: bool)
      requires At(OP_POP)
      modifies this`sp
      ensures Valid() && Took(old(Here()), sys, ok)
    {
      hide Apply, Load32, Store32, Complement;
      if sp < 1 { return false; }
      sp := sp - 1;
      return true;
    }

    /** The loop of OP_call: arguments are popped from the top down. */
    method PopArguments(parameters: nat) returns (parameterv: seq<Word>)
      requires Valid() && parameters < sp
      modifies this`sp
      ensures Valid() && sp == old(sp) - 1 - parameters
      ensures parameterv == stack[sp + 1..old(sp)]
    {
      parameterv := [];
      var i := 0;
      sp := sp - 1;
      while i < parameters
        invariant 0 <= i <= parameters && sp == old(sp) - 1 - i && Valid()
        invariant parameterv == stack[sp + 1..old(sp)]
      {
        parameterv := [stack[sp]] + parameterv;
        sp := sp - 1;
        i := i + 1;
      }
    }

    method Call(sys: Syscall) returns (ok: bool)
      requires At(OP_SYSCALL)
      modifies this, stack
      ensures Valid() && Took(old(Here()), sys, ok)
    {
      hide Apply, Load32, Store32, Complement;
      if pc >= TEXT_MAX { return false; }
      var parameters := text[pc];
      if parameters > CALL_MAX || sp < parameters + 1 { return false; }
      pc := pc + 1;
      var parameterv := PopArguments(parameters);
      ghost var was := old(stack[..sp]);
      assert parameterv == was[sp + 1..];
      var r := sys(stack[sp], parameterv, mem);
      stack[sp] := r.0;
      mem := r.1;
      sp := sp + 1;
      assert stack[..sp] == was[..sp - 1] + [r.0];
      return true;
    }

    /** op_table[op](). */
    method Dispatch(op: Byte, sys: Syscall) returns (ok: bool)
      requires At(op)
      modifies this, stack
      ensures Valid() && Took(old(Here()), sys, ok)
    {
      hide Apply, Load32, Store32, Complement;
      if op == OP_NOOP {
        ok := true;
      } else if BinaryOf(op).Some? {
        ok := BinDword(op, sys);
      } else if op == OP_BITWISE_DWORD {
        ok := BitwiseDword(sys);
      } else if op == OP_LD_DWORD {
        ok := LdDword(sys);
      } else if op == OP_LD_VALUE_DWORD {
        ok := LdValueDword(sys);
      } else if op == OP_LD_VALUE_DWORD_STACK {
        ok := LdValueDwordStack(sys);
      } else if op == OP_ST_DWORD {
        ok := StDword(sys);
      } else if op == OP_POP {
        ok := Pop(sys);
      } else if op == OP_SYSCALL {
        ok := Call(sys);
      } else {
        ok := false;
      }
    }

    /** finsh_vm_run. The loop ends because every opcode moves pc forward. */
    method Run(sys: Syscall) returns (ok: bool)
      requires Valid()
      modifies this, stack
      ensures Valid()
      ensures var r := Exec(text[..], State(0, [], old(mem)), sys);
              ok == r.Some? && (ok ==> View() == r.value)
    {
      sp := 0;
      pc := 0;
      ok := true;
      while pc < TEXT_MAX
        invariant Valid() && ok
        invariant Exec(text[..], View(), sys) == Exec(text[..], State(0, [], old(mem)), sys)
        decreases TEXT_MAX - pc
      {
        var op := text[pc];
        pc := pc + 1;
        ok := Dispatch(op, sys);
        if !ok { return; }
      }
    }
  }
}
