/** What a tree of the parser says about the tokens it was read from: how many there
    were at least, and how they began. An expression that has lost its first token is
    read as itself only if that token is the zero of a minus. */
module FinshTokens {
  import opened Basics
  import opened FinshOperators
  import opened FinshMachine
  import opened FinshSyntax
  import opened FinshParser
  import opened FinshRejects

  // --------------------------------------------- how many tokens a tree takes

  /** A zero literal weighs nothing, because a prefix minus makes one too. */
  function NodeWeight(d: Data): nat {
    if d.kind.KLit? && d.value == 0 then 0 else 1
  }

  function Weight(t: Tree): nat {
    match t case Nil => 0 case Node(d, c, s) => NodeWeight(d) + Weight(c) + Weight(s)
  }

  predicate IsZero(t: Token) {
    t.TLit? && t.value == 0
  }

  function TokenWeight(t: Token): nat {
    if IsZero(t) || t.TRightParen? || t.TComma? || t.TSemicolon? then 0 else 1
  }

  /** The weight of the tokens from one place up to another. */
  function Cost(toks: seq<Token>, from: nat, to: nat): nat
    decreases to - from
  {
    if from >= to then 0 else TokenWeight(TokenAt(toks, from)) + Cost(toks, from + 1, to)
  }

  lemma {:induction false} CostJoin(toks: seq<Token>, a: nat, b: nat, c: nat)
    requires a <= b <= c
    ensures Cost(toks, a, c) == Cost(toks, a, b) + Cost(toks, b, c)
    decreases b - a
  {
    if a < b { CostJoin(toks, a + 1, b, c); }
  }

  lemma CostOne(toks: seq<Token>, a: nat)
    ensures Cost(toks, a, a + 1) == TokenWeight(TokenAt(toks, a))
  {
    assert Cost(toks, a + 1, a + 1) == 0;
  }

  ghost predicate NoSemicolon(toks: seq<Token>, from: nat, to: nat) {
    forall i: nat :: from <= i < to ==> !TokenAt(toks, i).TSemicolon?
  }

  /** Tokens worth n at least, and no semicolon among them. */
  ghost predicate Pays(toks: seq<Token>, from: nat, to: nat, n: nat) {
    from <= to && NoSemicolon(toks, from, to) && n <= Cost(toks, from, to)
  }

  lemma PaysJoin(toks: seq<Token>, a: nat, b: nat, c: nat, m: nat, n: nat)
    requires Pays(toks, a, b, m) && Pays(toks, b, c, n)
    ensures Pays(toks, a, c, m + n)
  {
    CostJoin(toks, a, b, c);
  }

  lemma PaysOne(toks: seq<Token>, a: nat)
    requires !TokenAt(toks, a).TSemicolon?
    ensures Pays(toks, a, a + 1, TokenWeight(TokenAt(toks, a)))
  {
    CostOne(toks, a);
  }

  /** Where the tree begins to cost: a plus in front leaves no trace. */
  function Opening(toks: seq<Token>, at: nat): nat {
    if TokenAt(toks, at).TAdd? then at + 1 else at
  }

  /** A tree read without an error is paid for. */
  ghost predicate Paid(toks: seq<Token>, s: Cursor, r: Parsed) {
    r.s.err == ERR_OK ==> Pays(toks, Opening(toks, s.at), r.s.at, Weight(r.t))
  }

  lemma OverWeight(k: Kind, t: Tree, s: Tree)
    requires t.Node? && t.sibling.Nil? && !k.KLit?
    ensures Weight(Over(k, t, s)) == 1 + Weight(t) + Weight(s)
  {
    assert Weight(WithSibling(t, s)) == Weight(t) + Weight(s);
  }

  lemma SysWeight(s: Cursor, k: Kind, n1: Tree, n2: Tree)
    requires Single(n1) && !k.KLit?
    ensures var q := MakeSys(s, k, n1, n2);
            q.s.err == ERR_OK ==>
              s.err == ERR_OK && q.s.at == s.at && n1.Node? && Weight(q.t) == 1 + Weight(n1) + Weight(n2)
  {
    if n1.Node? { OverWeight(k, n1, n2); }
  }

  lemma {:induction false} AssignPaid(toks: seq<Token>, env: Env, s: Cursor)
    ensures Paid(toks, s, ParseAssign(toks, env, s))
    decreases Left(toks, s), 30
  {
    hide ParseBin, MakeSys, Pays, Weight;
    var p := ParseBin(1, toks, env, s);
    BinPaid(1, toks, env, s);
    if TokenAt(toks, p.s.at).TAssign? {
      var q := ParseAssign(toks, env, Skip(p.s));
      AssignPaid(toks, env, Skip(p.s));
      AssignSound(toks, env, Skip(p.s));
      SysWeight(q.s, KAssign, p.t, q.t);
      if MakeSys(q.s, KAssign, p.t, q.t).s.err == ERR_OK {
        Operand(toks, Opening(toks, s.at), p.s.at, q.s.at, Weight(p.t), Weight(q.t));
      }
    }
  }

  /** An operator between two operands. */
  lemma Operand(toks: seq<Token>, a: nat, b: nat, c: nat, m: nat, n: nat)
    requires Pays(toks, a, b, m) && Pays(toks, Opening(toks, b + 1), c, n)
    requires !TokenAt(toks, b).TSemicolon? && TokenWeight(TokenAt(toks, b)) == 1
    ensures Pays(toks, a, c, 1 + m + n)
  {
    PaysOne(toks, b);
    PaysJoin(toks, a, b, b + 1, m, 1);
    Opened(toks, b + 1, c, n);
    PaysJoin(toks, a, b + 1, c, m + 1, n);
  }

  lemma Opened(toks: seq<Token>, a: nat, c: nat, n: nat)
    requires Pays(toks, Opening(toks, a), c, n)
    ensures Pays(toks, a, c, n)
  {
    if TokenAt(toks, a).TAdd? {
      PaysOne(toks, a);
      PaysJoin(toks, a, a + 1, c, 1, n);
    }
  }

  lemma {:induction false} BinPaid(level: nat, toks: seq<Token>, env: Env, s: Cursor)
    requires 1 <= level <= LEVEL_CAST
    ensures Paid(toks, s, ParseBin(level, toks, env, s))
    decreases Left(toks, s), 29 - level
  {
    hide ParseCast, BinLoop, Pays, Weight;
    if level == LEVEL_CAST {
      CastPaid(toks, env, s);
    } else {
      var p := ParseBin(level + 1, toks, env, s);
      BinPaid(level + 1, toks, env, s);
      BinLoopSound(level, toks, env, p.s, p.t);
      if BinLoop(level, toks, env, p.s, p.t).s.err == ERR_OK {
        BinLoopPaid(level, toks, env, p.s, p.t, Opening(toks, s.at));
      }
    }
  }

  lemma {:induction false} BinLoopPaid(level: nat, toks: seq<Token>, env: Env, s: Cursor, acc: Tree, from: nat)
    requires 1 <= level < LEVEL_CAST && Single(acc)
    requires Pays(toks, from, s.at, Weight(acc)) && BinLoop(level, toks, env, s, acc).s.err == ERR_OK
    ensures var r := BinLoop(level, toks, env, s, acc); Pays(toks, from, r.s.at, Weight(r.t))
    decreases Left(toks, s), 5
  {
    hide ParseBin, MakeSys, OpAt, Pays, Weight, Clean;
    var op := OpAt(level, TokenAt(toks, s.at));
    if op.Some? {
      OpCosts(level, TokenAt(toks, s.at));
      var p := ParseBin(level + 1, toks, env, Skip(s));
      BinPaid(level + 1, toks, env, Skip(s));
      if p.t.Nil? {
        BinLoopOk(level, toks, env, Fail(p.s, ERR_EXPECT_OPERATOR), acc);
      } else {
        var q := MakeSys(p.s, KBin(op.value), acc, p.t);
        CleanSys(toks, p.s, KBin(op.value), acc, p.t);
        BinLoopOk(level, toks, env, q.s, q.t);
        SysWeight(p.s, KBin(op.value), acc, p.t);
        Operand(toks, from, s.at, p.s.at, Weight(acc), Weight(p.t));
        BinLoopPaid(level, toks, env, q.s, q.t, from);
      }
    }
  }

  lemma BinLoopOk(level: nat, toks: seq<Token>, env: Env, s: Cursor, acc: Tree)
    requires 1 <= level < LEVEL_CAST && Single(acc)
    ensures BinLoop(level, toks, env, s, acc).s.err == ERR_OK ==> s.err == ERR_OK
  {
    hide BinLoop;
    BinLoopSound(level, toks, env, s, acc);
  }

  lemma OpCosts(level: nat, t: Token)
    requires OpAt(level, t).Some?
    ensures !t.TSemicolon? && !t.TEof? && TokenWeight(t) == 1
  {
  }

  lemma {:induction false} CastPaid(toks: seq<Token>, env: Env, s: Cursor)
    ensures Paid(toks, s, ParseCast(toks, env, s))
    decreases Left(toks, s), 12
  {
    hide Pays, Weight, ParseUnary;
    if TokenAt(toks, s.at).TLeftParen? {
      CastFails(toks, env, s);
    } else {
      UnaryPaid(toks, env, s.(replayed := true));
    }
  }

  lemma {:induction false} UnaryPaid(toks: seq<Token>, env: Env, s: Cursor)
    requires !TokenAt(toks, s.at).TLeftParen?
    ensures Paid(toks, s, ParseUnary(toks, env, s))
    decreases Left(toks, s), 11
  {
    hide ParseCast, ParsePostfix, MakeSys, Pays, Weight;
    var t := TokenAt(toks, s.at);
    if t.TAdd? || t.TSub? || PrefixKind(t).Some? {
      var p := ParseCast(toks, env, Skip(s));
      CastPaid(toks, env, Skip(s));
      if t.TAdd? {
        if p.s.err == ERR_OK { Opened(toks, s.at + 1, p.s.at, Weight(p.t)); }
      } else if t.TSub? {
        NegPaid(toks, s, p);
      } else {
        SysWeight(p.s, PrefixKind(t).value, p.t, Nil);
        if MakeSys(p.s, PrefixKind(t).value, p.t, Nil).s.err == ERR_OK {
          NilWeight();
          Prefixed(toks, s.at, p.s.at, Weight(p.t));
        }
      }
    } else {
      PostfixPaid(toks, env, s.(replayed := true));
    }
  }

  lemma NilWeight()
    ensures Weight(Nil) == 0
  {
  }

  lemma Prefixed(toks: seq<Token>, a: nat, c: nat, n: nat)
    requires Pays(toks, Opening(toks, a + 1), c, n) && !TokenAt(toks, a).TSemicolon?
             && TokenWeight(TokenAt(toks, a)) == 1
    ensures Pays(toks, a, c, 1 + n)
  {
    PaysOne(toks, a);
    Opened(toks, a + 1, c, n);
    PaysJoin(toks, a, a + 1, c, 1, n);
  }

  lemma NegPaid(toks: seq<Token>, s: Cursor, p: Parsed)
    requires TokenAt(toks, s.at).TSub? && Paid(toks, Skip(s), p) && Single(p.t)
    ensures var z := NewLit(p.s, LongLit, 0); Paid(toks, s, MakeSys(z.s, KBin(Sub), z.t, p.t))
  {
    hide Pays, MakeSys, Weight;
    var z := NewLit(p.s, LongLit, 0);
    SysWeight(z.s, KBin(Sub), z.t, p.t);
    if MakeSys(z.s, KBin(Sub), z.t, p.t).s.err == ERR_OK {
      ZeroWeight(p.s);
      Prefixed(toks, s.at, p.s.at, Weight(p.t));
    }
  }

  lemma ZeroWeight(s: Cursor)
    ensures var z := NewLit(s, LongLit, 0); Weight(z.t) == 0
  {
  }

  lemma {:induction false} PostfixPaid(toks: seq<Token>, env: Env, s: Cursor)
    requires !TokenAt(toks, s.at).TLeftParen?
    ensures Paid(toks, s, ParsePostfix(toks, env, s))
    decreases Left(toks, s), 10
  {
    hide ParsePrimary, PostfixLoop, Pays, Weight;
    var p := ParsePrimary(toks, env, s);
    if PostfixLoop(toks, env, p.s, p.t).s.err == ERR_OK {
      if p.s.err != ERR_OK { PostfixSticky(toks, env, p.s, p.t); }
      PrimaryPaid(toks, env, s);
      PostfixLoopPaid(toks, env, p.s, p.t, Opening(toks, s.at));
    }
  }

  lemma PrimaryPaid(toks: seq<Token>, env: Env, s: Cursor)
    requires !TokenAt(toks, s.at).TLeftParen?
    ensures Paid(toks, s, ParsePrimary(toks, env, s))
  {
    if TokenAt(toks, s.at).TIdent? || TokenAt(toks, s.at).TLit? { PaysOne(toks, s.at); }
  }

  lemma {:induction false} PostfixLoopPaid(toks: seq<Token>, env: Env, s: Cursor, acc: Tree, from: nat)
    requires Single(acc) && Pays(toks, from, s.at, Weight(acc))
    requires PostfixLoop(toks, env, s, acc).s.err == ERR_OK
    ensures var r := PostfixLoop(toks, env, s, acc); Pays(toks, from, r.s.at, Weight(r.t))
    decreases Left(toks, s), 5
  {
    hide ParseParams, MakeSys, CallArgs, Pays, Weight;
    var t := TokenAt(toks, s.at);
    if t.TInc? || t.TDec? {
      var k := KStep(if t.TInc? then PostInc else PostDec);
      var q := MakeSys(Skip(s), k, acc, Nil);
      CleanSys(toks, Skip(s), k, acc, Nil);
      if q.s.err != ERR_OK { PostfixSticky(toks, env, q.s, q.t); }
      SysWeight(Skip(s), k, acc, Nil);
      NilWeight();
      PaysOne(toks, s.at);
      PaysJoin(toks, from, s.at, s.at + 1, Weight(acc), 1);
      PostfixLoopPaid(toks, env, q.s, q.t, from);
    } else if t.TLeftParen? {
      var p := CallArgs(toks, env, s);
      var q := MakeSys(p.s, KFunc, acc, p.t);
      CleanSys(toks, p.s, KFunc, acc, p.t);
      CallLoop(toks, env, s, acc);
      if q.s.err != ERR_OK { PostfixSticky(toks, env, q.s, q.t); }
      SysWeight(p.s, KFunc, acc, p.t);
      CallPaid(toks, env, s);
      PaysJoin(toks, from, s.at, p.s.at, Weight(acc), 1 + Weight(p.t));
      PostfixLoopPaid(toks, env, q.s, q.t, from);
    }
  }

  lemma {:induction false} CallPaid(toks: seq<Token>, env: Env, s: Cursor)
    requires TokenAt(toks, s.at).TLeftParen?
    ensures var p := CallArgs(toks, env, s); p.s.err == ERR_OK ==> Pays(toks, s.at, p.s.at, 1 + Weight(p.t))
    decreases Left(toks, s), 4
  {
    hide ParseParams, Pays, Weight;
    PaysOne(toks, s.at);
    if TokenAt(toks, s.at + 1).TRightParen? {
      NilWeight();
      PaysOne(toks, s.at + 1);
      PaysJoin(toks, s.at, s.at + 1, s.at + 2, 1, 0);
    } else {
      var s1 := Skip(s).(replayed := true);
      var l := ParseParams(toks, env, s1);
      ParamsPaid(toks, env, s1);
      if Match(toks, l.s, TRightParen).err == ERR_OK {
        PaysOne(toks, l.s.at);
        PaysJoin(toks, s.at, s.at + 1, l.s.at, 1, Weight(l.t));
        PaysJoin(toks, s.at, l.s.at, l.s.at + 1, 1 + Weight(l.t), 0);
      }
    }
  }

  lemma SiblingWeight(t: Tree, s: Tree)
    requires t.Node? && t.sibling.Nil?
    ensures Weight(WithSibling(t, s)) == Weight(t) + Weight(s)
  {
  }

  lemma {:induction false} ParamsPaid(toks: seq<Token>, env: Env, s: Cursor)
    ensures var r := ParseParams(toks, env, s); r.s.err == ERR_OK ==> Pays(toks, s.at, r.s.at, Weight(r.t))
    decreases Left(toks, s), 31
  {
    hide ParseAssign, ParamLoop, Pays, Weight;
    var p := ParseAssign(toks, env, s);
    AssignPaid(toks, env, s);
    AssignSound(toks, env, s);
    if ParseParams(toks, env, s).s.err == ERR_OK {
      assert p.t.Node?;
      var q := ParamLoop(toks, env, p.s);
      ParamLoopClean(toks, env, p.s);
      Opened(toks, s.at, p.s.at, Weight(p.t));
      ParamLoopPaid(toks, env, p.s);
      PaysJoin(toks, s.at, p.s.at, q.s.at, Weight(p.t), Weight(q.t));
      SiblingWeight(p.t, q.t);
    }
  }

  lemma {:induction false} ParamLoopPaid(toks: seq<Token>, env: Env, s: Cursor)
    ensures var r := ParamLoop(toks, env, s); r.s.err == ERR_OK ==> Pays(toks, s.at, r.s.at, Weight(r.t))
    decreases Left(toks, s), 5
  {
    hide ParseAssign, Pays, Weight, Clean;
    if !TokenAt(toks, s.at).TComma? {
      NilWeight();
      PaysNothing(toks, s.at);
    } else {
      var p := ParseAssign(toks, env, Skip(s));
      AssignPaid(toks, env, Skip(s));
      if p.t.Nil? {
        ParamLoopOk(toks, env, Fail(p.s, ERR_EXPECT_OPERATOR));
      } else if ParamLoop(toks, env, s).s.err == ERR_OK {
        var q := ParamLoop(toks, env, p.s);
        ParamLoopOk(toks, env, p.s);
        PaysOne(toks, s.at);
        Opened(toks, s.at + 1, p.s.at, Weight(p.t));
        PaysJoin(toks, s.at, s.at + 1, p.s.at, 0, Weight(p.t));
        ParamLoopPaid(toks, env, p.s);
        PaysJoin(toks, s.at, p.s.at, q.s.at, Weight(p.t), Weight(q.t));
        SiblingWeight(p.t, q.t);
      }
    }
  }

  lemma PaysNothing(toks: seq<Token>, a: nat)
    ensures Pays(toks, a, a, 0)
  {
  }

  lemma ParamLoopOk(toks: seq<Token>, env: Env, s: Cursor)
    ensures ParamLoop(toks, env, s).s.err == ERR_OK ==> s.err == ERR_OK
  {
    hide ParamLoop;
    ParamLoopClean(toks, env, s);
  }

  // ------------------------------------- the tokens of an expression pay exactly

  /** Tokens of a line that are worth exactly n. */
  ghost predicate Worth(toks: seq<Token>, from: nat, ts: seq<Token>, n: nat) {
    Reads(toks, from, ts) && Cost(toks, from, from + |ts|) == n
    && forall i: nat :: from <= i < from + |ts| ==>
         !TokenAt(toks, i).TSemicolon? && !TokenAt(toks, i).TEof? && !TokenAt(toks, i).TBad?
  }

  lemma WorthJoin(toks: seq<Token>, from: nat, a: seq<Token>, b: seq<Token>, m: nat, n: nat)
    requires Reads(toks, from, a + b) && Worth(toks, from, a, m) && Worth(toks, from + |a|, b, n)
    ensures Worth(toks, from, a + b, m + n)
  {
    CostJoin(toks, from, from + |a|, from + |a| + |b|);
  }

  lemma WorthOne(toks: seq<Token>, from: nat, t: Token)
    requires Reads(toks, from, [t]) && !t.TSemicolon? && !t.TEof? && !t.TBad?
    ensures Worth(toks, from, [t], TokenWeight(t))
  {
    ReadsOne(toks, from, t);
    CostOne(toks, from);
  }

  lemma WorthNothing(toks: seq<Token>, from: nat)
    requires from <= |toks|
    ensures Worth(toks, from, [], 0)
  {
  }

  /** One token in front. */
  lemma WorthCons(toks: seq<Token>, from: nat, t: Token, b: seq<Token>, n: nat)
    requires Reads(toks, from, [t] + b) && !t.TSemicolon? && !t.TEof? && !t.TBad?
    requires Worth(toks, from + 1, b, n)
    ensures Worth(toks, from, [t] + b, TokenWeight(t) + n)
  {
    ReadsSplit(toks, from, [t], b);
    WorthOne(toks, from, t);
    WorthJoin(toks, from, [t], b, TokenWeight(t), n);
  }

  lemma {:induction false} LinearWorth(e: Expr, env: Env, toks: seq<Token>, at: nat)
    requires Reads(toks, at, Linear(e))
    ensures Worth(toks, at, Linear(e), Weight(Lower(e, env)))
    decreases e, 1
  {
    hide Reads, Worth, Weight, TokenWeight;
    match e
    case Lit(k, v) =>
      WorthOne(toks, at, TLit(k, v));
      LeafWeight(e, env);
    case Name(id) =>
      WorthOne(toks, at, TIdent(id));
      LeafWeight(e, env);
    case Incr(op, x) =>
      if IsPrefix(e) {
        LinearPrefix(e, env, toks, at);
      } else {
        var t := if op.PostInc? then TInc else TDec;
        ReadsSplit(toks, at, Linear(x), [t]);
        LinearWorth(x, env, toks, at);
        WorthOne(toks, at + |Linear(x)|, t);
        WorthJoin(toks, at, Linear(x), [t], Weight(Lower(x, env)), TokenWeight(t));
        TokenWeights(t);
        OverWeight(KStep(op), Lower(x, env), Nil);
        NilWeight();
      }
    case Bin(op, x, y) =>
      InfixReads(x, OpToken(op), y, toks, at);
      LinearWorth(x, env, toks, at);
      LinearWorth(y, env, toks, at + |Linear(x)| + 1);
      TokenWeights(OpToken(op));
      InfixJoin(x, OpToken(op), y, KBin(op), env, toks, at);
    case Assign(x, y) =>
      InfixReads(x, TAssign, y, toks, at);
      LinearWorth(x, env, toks, at);
      LinearWorth(y, env, toks, at + |Linear(x)| + 1);
      TokenWeights(TAssign);
      InfixJoin(x, TAssign, y, KAssign, env, toks, at);
    case Call(f, args) =>
      CallTokens(f, args, toks, at);
      ArgsWorth(args, env, toks, at + 2);
      CallWorth(f, args, env, toks, at);
    case _ =>
      LinearPrefix(e, env, toks, at);
  }

  /** A prefix operator over an operand. */
  predicate IsPrefix(e: Expr) {
    e.Neg? || e.BitNot? || e.Deref? || e.AddrOf? || (e.Incr? && (e.op.PreInc? || e.op.PreDec?))
  }

  lemma {:induction false} LinearPrefix(e: Expr, env: Env, toks: seq<Token>, at: nat)
    requires IsPrefix(e) && Reads(toks, at, Linear(e))
    ensures Worth(toks, at, Linear(e), Weight(Lower(e, env)))
    decreases e, 0
  {
    hide Reads, Worth, TokenWeight, Linear, Lower, Weight;
    var t, x := Linear(e)[0], e.e;
    PrefixParts(e, env);
    ReadsSplit(toks, at, [t], Linear(x));
    LinearWorth(x, env, toks, at + 1);
    WorthCons(toks, at, t, Linear(x), Weight(Lower(x, env)));
  }

  lemma PrefixParts(e: Expr, env: Env)
    requires IsPrefix(e)
    ensures var t := Linear(e)[0];
            Linear(e) == [t] + Linear(e.e) && TokenWeight(t) == 1 && !t.TSemicolon? && !t.TEof? && !t.TBad?
    ensures Weight(Lower(e, env)) == 1 + Weight(Lower(e.e, env))
  {
    var x := Lower(e.e, env);
    hide Weight;
    if e.Neg? {
      ZeroWeight(Cursor(0, false, 0, ERR_OK));
      OverWeight(KBin(Sub), Node(Blank(KLit(LongLit)), Nil, Nil), x);
    } else {
      var k := if e.Incr? then KStep(e.op)
               else if e.BitNot? then KBitwise
               else if e.Deref? then KGetValue
               else KGetAddr;
      NilWeight();
      OverWeight(k, x, Nil);
    }
  }

  lemma TokenWeights(t: Token)
    ensures t.TInc? || t.TDec? || t.TAssign? || (exists op :: t == OpToken(op)) ==>
              TokenWeight(t) == 1 && !t.TSemicolon? && !t.TEof? && !t.TBad?
  {
  }

  lemma LeafWeight(e: Expr, env: Env)
    requires e.Lit? || e.Name?
    ensures Weight(Lower(e, env)) == if e.Lit? then TokenWeight(TLit(e.kind, e.value)) else 1
    ensures e.Name? ==> TokenWeight(TIdent(e.id)) == 1
  {
  }

  lemma InfixReads(x: Expr, t: Token, y: Expr, toks: seq<Token>, at: nat)
    requires Reads(toks, at, Linear(x) + [t] + Linear(y))
    ensures Reads(toks, at, Linear(x)) && Reads(toks, at, Linear(x) + [t])
    ensures Reads(toks, at + |Linear(x)|, [t]) && Reads(toks, at + |Linear(x)| + 1, Linear(y))
  {
    hide Linear, Reads;
    ReadsSplit(toks, at, Linear(x) + [t], Linear(y));
    ReadsSplit(toks, at, Linear(x), [t]);
  }

  lemma InfixJoin(x: Expr, t: Token, y: Expr, k: Kind, env: Env, toks: seq<Token>, at: nat)
    requires Reads(toks, at, Linear(x) + [t] + Linear(y)) && !k.KLit?
    requires TokenWeight(t) == 1 && !t.TSemicolon? && !t.TEof? && !t.TBad?
    requires Worth(toks, at, Linear(x), Weight(Lower(x, env)))
    requires Worth(toks, at + |Linear(x)| + 1, Linear(y), Weight(Lower(y, env)))
    ensures Worth(toks, at, Linear(x) + [t] + Linear(y), Weight(Over(k, Lower(x, env), Lower(y, env))))
  {
    hide Linear, Reads, Worth, Weight, TokenWeight, Lower;
    var a, b := Lower(x, env), Lower(y, env);
    InfixReads(x, t, y, toks, at);
    WorthOne(toks, at + |Linear(x)|, t);
    WorthJoin(toks, at, Linear(x), [t], Weight(a), 1);
    WorthJoin(toks, at, Linear(x) + [t], Linear(y), Weight(a) + 1, Weight(b));
    OverWeight(k, a, b);
  }

  lemma CallTokens(f: string, args: Args, toks: seq<Token>, at: nat)
    requires Reads(toks, at, Linear(Call(f, args)))
    ensures Reads(toks, at, [TIdent(f), TLeftParen] + LinearArgs(args)) && Reads(toks, at, [TIdent(f), TLeftParen])
    ensures Reads(toks, at + 2, LinearArgs(args)) && Reads(toks, at + 2 + |LinearArgs(args)|, [TRightParen])
  {
    hide Reads, LinearArgs;
    ReadsSplit(toks, at, [TIdent(f), TLeftParen] + LinearArgs(args), [TRightParen]);
    ReadsSplit(toks, at, [TIdent(f), TLeftParen], LinearArgs(args));
  }

  lemma CallWorth(f: string, args: Args, env: Env, toks: seq<Token>, at: nat)
    requires Reads(toks, at, Linear(Call(f, args)))
    requires Worth(toks, at + 2, LinearArgs(args), Weight(LowerArgs(args, env)))
    ensures Worth(toks, at, Linear(Call(f, args)), Weight(Lower(Call(f, args), env)))
  {
    hide Reads, Worth, LinearArgs, LowerArgs;
    CallTokens(f, args, toks, at);
    var n := Weight(LowerArgs(args, env));
    var end := at + 2 + |LinearArgs(args)|;
    assert [TIdent(f)] + [TLeftParen] == [TIdent(f), TLeftParen];
    ReadsSplit(toks, at, [TIdent(f)], [TLeftParen]);
    WorthOne(toks, at, TIdent(f));
    WorthOne(toks, at + 1, TLeftParen);
    WorthJoin(toks, at, [TIdent(f)], [TLeftParen], 1, 1);
    WorthJoin(toks, at, [TIdent(f), TLeftParen], LinearArgs(args), 2, n);
    WorthOne(toks, end, TRightParen);
    WorthJoin(toks, at, [TIdent(f), TLeftParen] + LinearArgs(args), [TRightParen], 2 + n, 0);
    OverWeight(KFunc, IdNode(SymbolOf(env, f)), LowerArgs(args, env));
  }

  lemma {:induction false} ArgsWorth(args: Args, env: Env, toks: seq<Token>, at: nat)
    requires Reads(toks, at, LinearArgs(args))
    ensures Worth(toks, at, LinearArgs(args), Weight(LowerArgs(args, env)))
  {
    hide Reads, Worth, Weight, Linear, Lower;
    match args
    case End =>
      assert at <= |toks| by { EndReads(toks, at); }
      WorthNothing(toks, at);
      NilWeight();
    case More(e, t) =>
      ReadsSplit(toks, at, Linear(e), LinearRest(t));
      LinearWorth(e, env, toks, at);
      RestWorth(t, env, toks, at + |Linear(e)|);
      WorthJoin(toks, at, Linear(e), LinearRest(t), Weight(Lower(e, env)), Weight(LowerArgs(t, env)));
      SiblingWeight(Lower(e, env), LowerArgs(t, env));
  }

  lemma EndReads(toks: seq<Token>, at: nat)
    requires Reads(toks, at, [])
    ensures at <= |toks|
  {
  }

  lemma {:induction false} RestWorth(args: Args, env: Env, toks: seq<Token>, at: nat)
    requires Reads(toks, at, LinearRest(args))
    ensures Worth(toks, at, LinearRest(args), Weight(LowerArgs(args, env)))
  {
    hide Reads, Worth, Weight, Linear, Lower;
    match args
    case End =>
      assert at <= |toks| by { EndReads(toks, at); }
      WorthNothing(toks, at);
      NilWeight();
    case More(e, t) =>
      ReadsSplit(toks, at, [TComma] + Linear(e), LinearRest(t));
      ReadsSplit(toks, at, [TComma], Linear(e));
      LinearWorth(e, env, toks, at + 1);
      RestWorth(t, env, toks, at + 1 + |Linear(e)|);
      WorthCons(toks, at, TComma, Linear(e), Weight(Lower(e, env)));
      WorthJoin(toks, at, [TComma] + Linear(e), LinearRest(t), Weight(Lower(e, env)), Weight(LowerArgs(t, env)));
      SiblingWeight(Lower(e, env), LowerArgs(t, env));
  }

  // ------------------------------------------------ how an expression begins

  /** The node over the leftmost leaf. */
  function Bottom(t: Tree): Tree {
    if t.Node? && t.child.Node? && t.child.child.Node? then Bottom(t.child)
    else if t.Node? then Node(t.data, t.child, Nil) else Nil
  }

  /** A prefix operator other than minus on the way down to the leftmost leaf. */
  predicate Prefixes(t: Tree) {
    t.Node? && t.child.Node?
    && (t.data.kind in {KGetValue, KGetAddr, KBitwise, KStep(PreInc), KStep(PreDec)} || Prefixes(t.child))
  }

  /** The root of an operand is no product. */
  predicate Operandlike(t: Tree) {
    t.Node? && t.data.kind !in {KBin(Mul), KBin(Div), KBin(Mod)}
  }

  /** A difference between a leaf and something that is no product. */
  predicate Minus(t: Tree) {
    t.Node? && t.data.kind == KBin(Sub) && t.child.Node? && Operandlike(t.child.sibling)
  }

  /** What a first token says about the tree. */
  predicate Begun(t: Token, r: Tree) {
    r.Node?
    && (PrefixKind(t).Some? ==> Prefixes(r))
    && (t.TSub? ==> r.child.Node? && Minus(Bottom(r)))
    && (t.TAdd? || t.TSub? || PrefixKind(t).Some? || t.TIdent? || t.TLit?)
  }

  lemma BegunOver(t: Token, k: Kind, r: Tree, s: Tree)
    requires Begun(t, r) && Single(r)
    ensures Begun(t, Over(k, r, s))
  {
    var q := Over(k, r, s);
    assert q.child.child == r.child && q.child.data == r.data;
  }

  lemma {:induction false} AssignBegun(toks: seq<Token>, env: Env, s: Cursor)
    requires ParseAssign(toks, env, s).s.err == ERR_OK
    ensures Begun(TokenAt(toks, s.at), ParseAssign(toks, env, s).t)
  {
    hide ParseBin, MakeSys, Begun;
    var p := ParseBin(1, toks, env, s);
    if TokenAt(toks, p.s.at).TAssign? {
      var q := ParseAssign(toks, env, Skip(p.s));
      AssignSound(toks, env, Skip(p.s));
      MadeOk(q.s, KAssign, p.t, q.t);
      BinBegun(1, toks, env, s);
      BegunOver(TokenAt(toks, s.at), KAssign, p.t, q.t);
    } else {
      BinBegun(1, toks, env, s);
    }
  }

  lemma MadeOk(s: Cursor, k: Kind, n1: Tree, n2: Tree)
    requires MakeSys(s, k, n1, n2).s.err == ERR_OK
    ensures s.err == ERR_OK && n1.Node? && MakeSys(s, k, n1, n2).t == Over(k, n1, n2)
  {
  }

  lemma {:induction false} BinBegun(level: nat, toks: seq<Token>, env: Env, s: Cursor)
    requires 1 <= level <= LEVEL_CAST && ParseBin(level, toks, env, s).s.err == ERR_OK
    ensures Begun(TokenAt(toks, s.at), ParseBin(level, toks, env, s).t)
    decreases LEVEL_CAST - level
  {
    hide ParseCast, BinLoop, Begun;
    if level == LEVEL_CAST {
      CastBegun(toks, env, s);
    } else {
      var p := ParseBin(level + 1, toks, env, s);
      BinLoopOk(level, toks, env, p.s, p.t);
      BinBegun(level + 1, toks, env, s);
      BinLoopBegun(level, toks, env, p.s, p.t, TokenAt(toks, s.at));
    }
  }

  lemma {:induction false} BinLoopBegun(level: nat, toks: seq<Token>, env: Env, s: Cursor, acc: Tree, t: Token)
    requires 1 <= level < LEVEL_CAST && Single(acc) && Begun(t, acc)
             && BinLoop(level, toks, env, s, acc).s.err == ERR_OK
    ensures Begun(t, BinLoop(level, toks, env, s, acc).t)
    decreases Left(toks, s)
  {
    hide ParseBin, MakeSys, OpAt, Begun, Clean;
    var op := OpAt(level, TokenAt(toks, s.at));
    if op.Some? {
      OpCosts(level, TokenAt(toks, s.at));
      var p := ParseBin(level + 1, toks, env, Skip(s));
      if p.t.Nil? {
        BinLoopOk(level, toks, env, Fail(p.s, ERR_EXPECT_OPERATOR), acc);
      } else {
        var q := MakeSys(p.s, KBin(op.value), acc, p.t);
        CleanSys(toks, p.s, KBin(op.value), acc, p.t);
        BinLoopOk(level, toks, env, q.s, q.t);
        MadeOk(p.s, KBin(op.value), acc, p.t);
        BegunOver(t, KBin(op.value), acc, p.t);
        BinLoopBegun(level, toks, env, q.s, q.t, t);
      }
    }
  }

  /** An operand at the cast level. */
  lemma {:induction false} CastBegun(toks: seq<Token>, env: Env, s: Cursor)
    requires ParseCast(toks, env, s).s.err == ERR_OK
    ensures Begun(TokenAt(toks, s.at), ParseCast(toks, env, s).t) && Operandlike(ParseCast(toks, env, s).t)
    decreases Left(toks, s)
  {
    hide MakeSys, ParsePostfix;
    if TokenAt(toks, s.at).TLeftParen? {
      hide ParseUnary;
      CastFails(toks, env, s);
    } else {
      var s1 := s.(replayed := true);
      var t := TokenAt(toks, s.at);
      assert ParseCast(toks, env, s) == ParseUnary(toks, env, s1);
      if t.TAdd? || t.TSub? || PrefixKind(t).Some? {
        hide ParseCast;
        var p := ParseCast(toks, env, Skip(s1));
        if t.TAdd? {
          CastBegun(toks, env, Skip(s1));
        } else if t.TSub? {
          var z := NewLit(p.s, LongLit, 0);
          MadeOk(z.s, KBin(Sub), z.t, p.t);
          CastBegun(toks, env, Skip(s1));
          assert z.t == Node(Blank(KLit(LongLit)), Nil, Nil);
        } else {
          MadeOk(p.s, PrefixKind(t).value, p.t, Nil);
        }
      } else {
        PostfixBegun(toks, env, s1);
      }
    }
  }

  lemma {:induction false} PostfixBegun(toks: seq<Token>, env: Env, s: Cursor)
    requires ParsePostfix(toks, env, s).s.err == ERR_OK && PrefixKind(TokenAt(toks, s.at)).None?
    requires !TokenAt(toks, s.at).TLeftParen? && !TokenAt(toks, s.at).TSub? && !TokenAt(toks, s.at).TAdd?
    ensures Begun(TokenAt(toks, s.at), ParsePostfix(toks, env, s).t) && Operandlike(ParsePostfix(toks, env, s).t)
  {
    hide PostfixLoop;
    var p := ParsePrimary(toks, env, s);
    if p.s.err != ERR_OK { PostfixSticky(toks, env, p.s, p.t); }
    PostfixLoopBegun(toks, env, p.s, p.t);
  }

  lemma {:induction false} PostfixLoopBegun(toks: seq<Token>, env: Env, s: Cursor, acc: Tree)
    requires Single(acc) && Operandlike(acc) && PostfixLoop(toks, env, s, acc).s.err == ERR_OK
    ensures Operandlike(PostfixLoop(toks, env, s, acc).t)
    decreases Left(toks, s)
  {
    hide ParseParams, MakeSys, CallArgs;
    var t := TokenAt(toks, s.at);
    if t.TInc? || t.TDec? {
      var k := KStep(if t.TInc? then PostInc else PostDec);
      var q := MakeSys(Skip(s), k, acc, Nil);
      CleanSys(toks, Skip(s), k, acc, Nil);
      if q.s.err != ERR_OK { PostfixSticky(toks, env, q.s, q.t); }
      MadeOk(Skip(s), k, acc, Nil);
      PostfixLoopBegun(toks, env, q.s, q.t);
    } else if t.TLeftParen? {
      var p := CallArgs(toks, env, s);
      var q := MakeSys(p.s, KFunc, acc, p.t);
      CleanSys(toks, p.s, KFunc, acc, p.t);
      CallLoop(toks, env, s, acc);
      if q.s.err != ERR_OK { PostfixSticky(toks, env, q.s, q.t); }
      MadeOk(p.s, KFunc, acc, p.t);
      PostfixLoopBegun(toks, env, q.s, q.t);
    }
  }

  // ------------------------------------------------------- the zero of a minus

  /** The tree with all its literals of one kind; the kind changes neither the code nor
      the value. */
  function Plain(t: Tree): Tree {
    match t case Nil => Nil case Node(d, c, s) => Node(PlainData(d), Plain(c), Plain(s))
  }

  function PlainData(d: Data): Data {
    if d.kind.KLit? then d.(kind := KLit(LongLit)) else d
  }

  lemma {:induction false} PlainSame(t: Tree)
    ensures Weight(Plain(t)) == Weight(t) && (Prefixes(Plain(t)) <==> Prefixes(t))
    ensures Bottom(Plain(t)) == Plain(Bottom(t))
  {
    if t.Node? {
      PlainSame(t.child);
      PlainSame(t.sibling);
    }
  }

  predicate IsZeroLit(x: Expr) {
    x.Lit? && x.value == 0
  }

  /** The expression without the zero in front, if it begins with a zero from which an
      operand is taken: `0-x` and `-x` have the same tree, but for the kind of the zero. */
  function Strip(e: Expr): Option<Expr> {
    match e
    case Bin(op, x, y) =>
      if IsZeroLit(x) then (if op == Sub && Level(y) >= 7 then Some(Neg(y)) else None)
      else
        (match Strip(x) case None => None case Some(x') => Some(Bin(op, x', y)))
    case Assign(x, y) => (match Strip(x) case None => None case Some(x') => Some(Assign(x', y)))
    case _ => None
  }

  lemma {:induction false} StripSame(e: Expr, env: Env)
    requires Strip(e).Some?
    ensures var e', z := Strip(e).value, Linear(e)[0];
            IsZero(z) && Linear(e) == [z] + Linear(e')
            && Plain(Lower(e', env)) == Plain(Lower(e, env)) && Nodes(e') == Nodes(e)
  {
    hide Linear, Lower, Nodes, Strip, Plain;
    StripCases(e, env);
    if !IsZeroLit(e.l) {
      StripSame(e.l, env);
      var x', z, t := Strip(e.l).value, Linear(e.l)[0], if e.Bin? then OpToken(e.bop) else TAssign;
      assert [z] + (Linear(x') + [t] + Linear(e.r)) == [z] + Linear(x') + [t] + Linear(e.r);
    }
  }

  lemma StripCases(e: Expr, env: Env)
    requires Strip(e).Some?
    ensures (e.Bin? || e.Assign?)
    ensures var e', z := Strip(e).value, Linear(e)[0];
            if IsZeroLit(e.l) then
              IsZero(z) && Linear(e) == [z] + Linear(e')
              && Plain(Lower(e', env)) == Plain(Lower(e, env)) && Nodes(e') == Nodes(e)
            else
              Strip(e.l).Some? && StripOver(e, e', Strip(e.l).value, env)
  {
    hide Fits, Level, Strip;
    StripIs(e);
    if IsZeroLit(e.l) {
      assert Linear(e) == Linear(e.l) + ([TSub] + Linear(e.r));
    } else {
      PlainLeft(e, Strip(e.l).value, env);
    }
  }

  lemma StripIs(e: Expr)
    requires Strip(e).Some?
    ensures (e.Bin? || e.Assign?)
    ensures if IsZeroLit(e.l) then e.Bin? && e.bop == Sub && Strip(e).value == Neg(e.r)
            else Strip(e.l).Some? && Strip(e).value == e.(l := Strip(e.l).value)
  {
  }

  lemma PlainLeft(e: Expr, x': Expr, env: Env)
    requires e.Bin? || e.Assign?
    ensures Plain(Lower(x', env)) == Plain(Lower(e.l, env)) ==>
              Plain(Lower(e.(l := x'), env)) == Plain(Lower(e, env))
  {
    PlainSibling(Lower(x', env), Lower(e.r, env));
    PlainSibling(Lower(e.l, env), Lower(e.r, env));
  }

  lemma PlainSibling(t: Tree, s: Tree)
    requires t.Node? && t.sibling.Nil?
    ensures Plain(WithSibling(t, s)) == WithSibling(Plain(t), Plain(s)) && Plain(t).sibling.Nil?
  {
  }

  /** Two infix expressions differ in their left operands only. */
  ghost predicate StripOver(e: Expr, e': Expr, x': Expr, env: Env)
    requires e.Bin? || e.Assign?
  {
    var t := if e.Bin? then OpToken(e.bop) else TAssign;
    Linear(e) == Linear(e.l) + [t] + Linear(e.r) && Linear(e') == Linear(x') + [t] + Linear(e.r)
    && (Plain(Lower(x', env)) == Plain(Lower(e.l, env)) ==> Plain(Lower(e', env)) == Plain(Lower(e, env)))
    && (Nodes(x') == Nodes(e.l) ==> Nodes(e') == Nodes(e))
  }

  lemma {:induction false} StripFits(e: Expr, env: Env)
    requires Strip(e).Some? && Fits(e, env)
    ensures Fits(Strip(e).value, env) && Level(Strip(e).value) >= Level(e)
  {
    if !IsZeroLit(e.l) { StripFits(e.l, env); }
  }

  /** An expression of several tokens that begins with a zero: what follows is an
      operator, no prefix stands above the zero, and if the operator is a minus in front
      of an operand, the zero can be left out. */
  lemma {:induction false} ZeroFirst(e: Expr, env: Env)
    requires Fits(e, env) && |Linear(e)| > 1 && IsZero(Linear(e)[0])
    ensures !Linear(e)[1].TIdent? && !Linear(e)[1].TLit? && !Prefixes(Lower(e, env))
    ensures Linear(e)[1].TSub? && Minus(Bottom(Lower(e, env))) ==> Strip(e).Some?
    ensures Lower(e, env).child.Node?
    decreases e, 1
  {
    if e.Incr? {
      var x := e.e;
      if !x.Lit? {
        LongEnough(x);
        assert Linear(x)[0] == Linear(e)[0] && Linear(x)[1] == Linear(e)[1];
        ZeroFirst(x, env);
      }
    } else if e.Bin? || e.Assign? {
      ZeroLeft(e, env);
    }
  }

  lemma {:induction false} ZeroLeft(e: Expr, env: Env)
    requires e.Bin? || e.Assign?
    requires Fits(e, env) && IsZero(Linear(e)[0])
    ensures |Linear(e)| > 1 && !Linear(e)[1].TIdent? && !Linear(e)[1].TLit? && !Prefixes(Lower(e, env))
    ensures Linear(e)[1].TSub? && Minus(Bottom(Lower(e, env))) ==> Strip(e).Some?
    ensures Lower(e, env).child.Node?
    decreases e, 0
  {
    hide Linear, Bottom, Prefixes, Minus, Strip;
    InfixParts(e, env);
    var x := e.l;
    LeafFirst(x);
    if x.Lit? {
      LiteralFirst(e, env);
    } else {
      LongEnough(x);
      ZeroFirst(x, env);
      InfixTree(e, env);
    }
  }

  lemma InfixParts(e: Expr, env: Env)
    requires e.Bin? || e.Assign?
    ensures |Linear(e)| > 1 && Linear(e)[0] == Linear(e.l)[0]
    ensures |Linear(e.l)| > 1 ==> Linear(e)[1] == Linear(e.l)[1]
    ensures |Linear(e.l)| == 1 ==> Linear(e)[1] == if e.Bin? then OpToken(e.bop) else TAssign
    ensures Lower(e, env).child == WithSibling(Lower(e.l, env), Lower(e.r, env))
  {
  }

  lemma LiteralFirst(e: Expr, env: Env)
    requires (e.Bin? || e.Assign?) && IsZeroLit(e.l) && Fits(e, env)
    ensures !Linear(e)[1].TIdent? && !Linear(e)[1].TLit? && !Prefixes(Lower(e, env))
    ensures Linear(e)[1].TSub? && Minus(Bottom(Lower(e, env))) ==> Strip(e).Some?
  {
    hide Linear, Fits;
    InfixParts(e, env);
    assert |Linear(e.l)| == 1 by { LiteralOne(e.l); }
    if e.Bin? && e.bop == Sub && Operandlike(Lower(e.r, env)) { FactorLevel(e.r, e, env); }
  }

  lemma LeafFirst(x: Expr)
    requires IsZero(Linear(x)[0])
    ensures !x.Name? && (x.Lit? ==> IsZeroLit(x))
  {
  }

  lemma LiteralOne(x: Expr)
    requires x.Lit?
    ensures |Linear(x)| == 1
  {
  }

  lemma FactorLevel(y: Expr, e: Expr, env: Env)
    requires e.Bin? && e.bop == Sub && e.r == y && Fits(e, env) && Operandlike(Lower(y, env))
    ensures Level(y) >= 7
  {
  }

  lemma InfixTree(e: Expr, env: Env)
    requires e.Bin? || e.Assign?
    requires !IsZeroLit(e.l) && Lower(e.l, env).child.Node?
    ensures Bottom(Lower(e, env)) == Bottom(Lower(e.l, env)) && Lower(e, env).child.Node?
    ensures Prefixes(Lower(e, env)) <==> Prefixes(Lower(e.l, env))
    ensures Strip(e.l).Some? ==> Strip(e).Some?
  {
    InfixParts(e, env);
  }

  lemma LongEnough(x: Expr)
    requires !x.Lit? && !x.Name?
    ensures |Linear(x)| > 1
  {
  }

  /** An expression whose first token is lost is read as itself only if that token is
      the zero of a minus. */
  lemma FirstLost(e: Expr, toks: seq<Token>, env: Env, s: Cursor)
    requires Fits(e, env) && |Linear(e)| > 1 && s.at > 0 && Reads(toks, s.at - 1, Linear(e))
    requires var p := ParseAssign(toks, env, s);
             p.s.err == ERR_OK && p.s.at == s.at - 1 + |Linear(e)| && Plain(p.t) == Plain(Lower(e, env))
    ensures Strip(e).Some?
  {
    hide ParseAssign, Linear, Fits, Weight, Lower, Prefixes, Bottom, Reads;
    var at := s.at - 1;
    var p := ParseAssign(toks, env, s);
    PlainAgree(p.t, Lower(e, env));
    hide Plain, Minus;
    LinearWorth(e, env, toks, at);
    AssignPaid(toks, env, s);
    AssignBegun(toks, env, s);
    FirstToken(e, env);
    NoComma(e);
    FirstTwo(toks, at, Linear(e));
    assert TokenWeight(Linear(e)[0]) == 0 && !Linear(e)[1].TAdd? by { Balance(toks, at, p.s.at, p.t, Linear(e)); }
    ZeroFirst(e, env);
  }

  /** Trees that are the same but for the kinds of their literals agree on all this. */
  lemma PlainAgree(t: Tree, u: Tree)
    requires Plain(t) == Plain(u)
    ensures Weight(t) == Weight(u) && (Prefixes(t) <==> Prefixes(u)) && (Minus(Bottom(t)) <==> Minus(Bottom(u)))
  {
    PlainSame(t);
    PlainSame(u);
    PlainMinus(Bottom(t));
    PlainMinus(Bottom(u));
  }

  lemma PlainMinus(t: Tree)
    ensures Minus(Plain(t)) <==> Minus(t)
  {
    if t.Node? && t.child.Node? {
      var y := t.child.sibling;
      assert Plain(t).child == Plain(t.child) && Plain(t.child).sibling == Plain(y);
      assert Operandlike(Plain(y)) <==> Operandlike(y);
    }
  }

  lemma {:induction false} NoComma(e: Expr)
    ensures !Linear(e)[0].TComma?
  {
    match e
    case Incr(_, x) => NoComma(x);
    case Bin(_, x, _) => NoComma(x);
    case Assign(x, _) => NoComma(x);
    case _ =>
  }

  lemma FirstTwo(toks: seq<Token>, at: nat, ts: seq<Token>)
    requires Reads(toks, at, ts) && |ts| > 1
    ensures TokenAt(toks, at) == ts[0] && TokenAt(toks, at + 1) == ts[1]
  {
    assert toks[at..at + |ts|][0] == ts[0] && toks[at..at + |ts|][1] == ts[1];
  }

  /** The tokens left must still pay for the whole tree. */
  lemma Balance(toks: seq<Token>, at: nat, to: nat, t: Tree, ts: seq<Token>)
    requires |ts| > 1 && to == at + |ts| && Worth(toks, at, ts, Weight(t))
             && Pays(toks, Opening(toks, at + 1), to, Weight(t))
    ensures TokenWeight(TokenAt(toks, at)) == 0 && !TokenAt(toks, at + 1).TAdd?
  {
    hide Weight;
    CostJoin(toks, at, at + 1, to);
    CostOne(toks, at);
    CostJoin(toks, at + 1, at + 2, to);
    CostOne(toks, at + 1);
  }
}
