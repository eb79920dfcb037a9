/** The parser as finsh_parser.c runs it: a token cursor with a replay flag, nodes
    taken from the table and linked in place, one method per grammar rule. Each
    method is proved against the function of FinshParser for the same rule. */
module FinshReader {
  import opened Basics
  import opened FinshOperators
  import opened FinshMachine
  import opened FinshSyntax
  import opened FinshNodes
  import opened FinshParser

  /** An image of t at slot i, inside table slots from..to. */
  ghost predicate Holds(tab: seq<Slot>, from: nat, to: nat, i: int, t: Tree) {
    Rep(tab, i, t) && forall j :: j in Slots(tab, i, t) ==> from <= j < to
  }

  lemma Keep(tab: seq<Slot>, tab': seq<Slot>, from: nat, to: nat, i: int, t: Tree)
    requires Holds(tab, from, to, i, t) && |tab| == |tab'| && from <= to <= |tab|
    requires forall j :: from <= j < to ==> tab'[j] == tab[j]
    ensures Holds(tab', from, to, i, t) && Slots(tab', i, t) == Slots(tab, i, t)
  {
    Frame(tab, tab', i, t);
  }

  /** Two images made one after the other do not meet. */
  lemma Both(tab: seq<Slot>, tab': seq<Slot>, from: nat, mid: nat, to: nat, i: int, t: Tree, j: int, u: Tree)
    requires from <= mid <= to <= |tab| && Same(tab', tab, mid)
    requires Holds(tab, from, mid, i, t) && Holds(tab', mid, to, j, u)
    ensures Joined(tab', from, to, i, t, j, u)
  {
    Keep(tab, tab', from, mid, i, t);
  }

  ghost predicate Joined(tab: seq<Slot>, from: nat, to: nat, i: int, t: Tree, j: int, u: Tree) {
    Holds(tab, from, to, i, t) && Holds(tab, from, to, j, u) && Apart(Slots(tab, i, t), Slots(tab, j, u))
  }

  lemma JoinedSwap(tab: seq<Slot>, from: nat, to: nat, i: int, t: Tree, j: int, u: Tree)
    requires Joined(tab, from, to, i, t, j, u)
    ensures Joined(tab, from, to, j, u, i, t)
  {
  }

  lemma Root(tab: seq<Slot>, from: nat, to: nat, i: int, t: Tree)
    requires Holds(tab, from, to, i, t)
    ensures i == -1 <==> t.Nil?
    ensures i != -1 ==> from <= i < to && i < |tab|
    ensures Joined(tab, from, to, i, t, -1, Nil)
  {
    assert t.Node? ==> i in Slots(tab, i, t);
  }

  lemma NoTree(tab: seq<Slot>, from: nat, to: nat)
    ensures Holds(tab, from, to, -1, Nil)
  {
  }

  lemma Widen(tab: seq<Slot>, from: nat, mid: nat, to: nat, i: int, t: Tree)
    requires Holds(tab, mid, to, i, t) && from <= mid
    ensures Holds(tab, from, to, i, t)
  {
  }

  /** Giving n1 the sibling n2. */
  lemma Attach(tab: seq<Slot>, tab': seq<Slot>, from: nat, to: nat, n1: int, t1: Tree, n2: int, t2: Tree)
    requires Joined(tab, from, to, n1, t1, n2, t2) && t1.Node? && to <= |tab| == |tab'|
    requires tab'[n1] == tab[n1].(sibling := n2)
    requires forall j :: 0 <= j < to && j != n1 ==> tab'[j] == tab[j]
    ensures Holds(tab', from, to, n1, WithSibling(t1, t2))
  {
    var c := tab[n1].child;
    assert n1 in Slots(tab, n1, t1);
    assert forall j :: j in Slots(tab, c, t1.child) ==> j in Slots(tab, n1, t1);
    Frame(tab, tab', c, t1.child);
    Frame(tab, tab', n2, t2);
  }

  /** Linking: slot k becomes the parent of n1, and n2 the sibling of n1. */
  lemma Link(tab: seq<Slot>, tab': seq<Slot>, from: nat, k: nat, kind: Kind, n1: int, t1: Tree, n2: int, t2: Tree)
    requires from <= k < |tab| == |tab'| && t1.Node?
    requires Joined(tab, from, k, n1, t1, n2, t2)
    requires tab'[k] == Slot(Blank(kind), n1, -1)
    requires tab'[n1] == tab[n1].(sibling := n2)
    requires forall j :: 0 <= j < |tab| && j != k && j != n1 ==> tab'[j] == tab[j]
    ensures Holds(tab', from, k + 1, k, Over(kind, t1, t2))
  {
    Attach(tab, tab', from, k, n1, t1, n2, t2);
  }

  // --------------------------------------------------------- sibling lists

  /** u after the last sibling of t. */
  function Append(t: Tree, u: Tree): (r: Tree)
    ensures r.Node? == (t.Node? || u.Node?)
  {
    match t case Nil => u case Node(d, c, s) => Node(d, c, Append(s, u))
  }

  lemma {:induction false} AppendNil(t: Tree)
    ensures Append(t, Nil) == t
  {
    match t case Nil => case Node(d, c, s) => AppendNil(s);
  }

  /** Adding one tree u now, and `tail` later, is adding u with that tail. */
  lemma {:induction false} AppendStep(t: Tree, u: Tree, tail: Tree)
    requires Single(u)
    ensures Append(Append(t, u), tail) == Append(t, if u.Nil? then tail else WithSibling(u, tail))
  {
    match t case Nil => case Node(d, c, s) => AppendStep(s, u, tail);
  }

  ghost function LastSlot(tab: seq<Slot>, i: int, t: Tree): int
    decreases t
  {
    if t.Node? && t.sibling.Node? && 0 <= i < |tab| then LastSlot(tab, tab[i].sibling, t.sibling) else i
  }

  lemma {:induction false} LastInSlots(tab: seq<Slot>, i: int, t: Tree)
    requires t.Node? && Rep(tab, i, t)
    ensures LastSlot(tab, i, t) in Slots(tab, i, t) && 0 <= LastSlot(tab, i, t) < |tab|
    decreases t
  {
    if t.sibling.Node? {
      LastInSlots(tab, tab[i].sibling, t.sibling);
    }
  }

  lemma {:induction false} LastAgrees(tab: seq<Slot>, tab': seq<Slot>, i: int, t: Tree)
    requires Rep(tab, i, t) && |tab| == |tab'|
    requires forall j :: j in Slots(tab, i, t) && 0 <= j < |tab| ==> tab'[j] == tab[j]
    ensures LastSlot(tab', i, t) == LastSlot(tab, i, t)
    decreases t
  {
    if t.Node? && t.sibling.Node? {
      LastAgrees(tab, tab', tab[i].sibling, t.sibling);
    }
  }

  lemma LastFrame(tab: seq<Slot>, tab': seq<Slot>, from: nat, to: nat, i: int, t: Tree)
    requires Holds(tab, from, to, i, t) && Same(tab', tab, to)
    ensures LastSlot(tab', i, t) == LastSlot(tab, i, t)
  {
    LastAgrees(tab, tab', i, t);
  }

  lemma StartChain(tab: seq<Slot>, i: int, t: Tree, rest: Tree)
    requires t.Node? && Single(t)
    ensures LastSlot(tab, i, t) == i && Append(t, rest) == WithSibling(t, rest)
  {
  }

  lemma {:induction false} AttachLast(tab: seq<Slot>, tab': seq<Slot>, i: int, t: Tree, j: int, u: Tree)
    requires t.Node? && Rep(tab, i, t) && Rep(tab, j, u) && |tab| == |tab'|
    requires Apart(Slots(tab, i, t), Slots(tab, j, u))
    requires var k := LastSlot(tab, i, t);
             forall l :: 0 <= l < |tab| ==> tab'[l] == if l == k then tab[l].(sibling := j) else tab[l]
    ensures Rep(tab', i, Append(t, u))
    ensures Slots(tab', i, Append(t, u)) == Slots(tab, i, t) + Slots(tab, j, u)
    ensures LastSlot(tab', i, Append(t, u)) == if u.Node? then LastSlot(tab, j, u) else LastSlot(tab, i, t)
    decreases t
  {
    var k := LastSlot(tab, i, t);
    LastInSlots(tab, i, t);
    if t.sibling.Nil? {
      Frame(tab, tab', tab[i].child, t.child);
      Frame(tab, tab', j, u);
      LastAgrees(tab, tab', j, u);
    } else {
      var s := tab[i].sibling;
      LastInSlots(tab, s, t.sibling);
      Frame(tab, tab', tab[i].child, t.child);
      AttachLast(tab, tab', s, t.sibling, j, u);
    }
  }

  lemma ParamRule(toks: seq<Token>, env: Env, s: Cursor)
    ensures !TokenAt(toks, s.at).TComma? ==> ParamLoop(toks, env, s) == Parsed(s.(replayed := true), Nil)
    ensures TokenAt(toks, s.at).TComma? ==>
              var p := ParseAssign(toks, env, Skip(s));
              var q := ParamLoop(toks, env, if p.t.Nil? then Fail(p.s, ERR_EXPECT_OPERATOR) else p.s);
              ParamLoop(toks, env, s) == Parsed(q.s, if p.t.Nil? then q.t else WithSibling(p.t, q.t))
  {
    hide ParseAssign;
  }

  /** The parameters read so far and those the loop will read from s make up the list. */
  ghost predicate Growing(toks: seq<Token>, env: Env, s: Cursor, chain: Tree, r: Cursor, whole: Tree) {
    chain.Node? && ParamLoop(toks, env, s).s == r && Append(chain, ParamLoop(toks, env, s).t) == whole
  }

  /** Where the loop over parameters goes on after parameter q. */
  function ParamNext(q: Parsed): Cursor {
    if q.t.Nil? then Fail(q.s, ERR_EXPECT_OPERATOR) else q.s
  }

  lemma GrowingStep(toks: seq<Token>, env: Env, s: Cursor, chain: Tree, r: Cursor, whole: Tree)
    requires Growing(toks, env, s, chain, r, whole) && TokenAt(toks, s.at).TComma?
    ensures var q := ParseAssign(toks, env, Skip(s));
            Growing(toks, env, ParamNext(q), Append(chain, q.t), r, whole) && ParamNext(q).at > s.at + 1
    ensures var n := ParamNext(ParseAssign(toks, env, Skip(s))); s.at < |toks| && Replay(Skip(n)) == n
  {
    hide ParseAssign, ParamLoop;
    ParamRule(toks, env, s);
    var q := ParseAssign(toks, env, Skip(s));
    AppendStep(chain, q.t, ParamLoop(toks, env, ParamNext(q)).t);
  }

  lemma GrowingStart(toks: seq<Token>, env: Env, p: Parsed, s: Cursor)
    requires p.t.Node? && Single(p.t) && p.s.replayed && s == Replay(Skip(p.s))
    ensures var rest := ParamLoop(toks, env, p.s);
            s == p.s && Growing(toks, env, s, p.t, rest.s, WithSibling(p.t, rest.t))
  {
    hide ParamLoop;
    StartChain([], 0, p.t, ParamLoop(toks, env, p.s).t);
  }

  lemma GrowingEnds(toks: seq<Token>, env: Env, s: Cursor, chain: Tree, r: Cursor, whole: Tree)
    requires Growing(toks, env, s, chain, r, whole) && !TokenAt(toks, s.at).TComma?
    ensures chain == whole && s.(replayed := true) == r
  {
    hide ParamLoop;
    ParamRule(toks, env, s);
    AppendNil(chain);
  }

  /** Where the loop over statements reads on after statement p, begun at s. */
  function ProgramNext(toks: seq<Token>, s: Cursor, p: Parsed, started: bool): Cursor {
    if p.t.Nil? && started && !TokenAt(toks, s.at).TIdent? then Skip(p.s) else p.s
  }

  lemma ProgramRule(toks: seq<Token>, env: Env, s: Cursor, started: bool)
    ensures var t := TokenAt(toks, s.at);
            var p := ParseStatement(toks, env, s.(replayed := true));
            if t.TEof? || t.TBad? then ParseProgram(toks, env, s, started) == Parsed(Skip(s), Nil)
            else
              var q := ParseProgram(toks, env, ProgramNext(toks, s, p, started), started || p.t.Node?);
              ParseProgram(toks, env, s, started) == Parsed(q.s, if p.t.Nil? then q.t else WithSibling(p.t, q.t))
  {
    hide ParseStatement;
  }

  lemma ProgramIgnoresReplay(toks: seq<Token>, env: Env, s: Cursor, started: bool)
    ensures ParseProgram(toks, env, s, started) == ParseProgram(toks, env, s.(replayed := true), started)
  {
    hide ParseStatement, ParseProgram;
    ProgramRule(toks, env, s, started);
    ProgramRule(toks, env, s.(replayed := true), started);
  }

  lemma AppendToNil(t: Tree)
    ensures Append(Nil, t) == t
  {
  }

  lemma SingleLast(tab: seq<Slot>, i: int, t: Tree)
    requires Single(t)
    ensures LastSlot(tab, i, t) == i
  {
  }

  lemma SetType(tab: seq<Slot>, tab': seq<Slot>, from: nat, to: nat, i: int, t: Tree)
    requires t.Node? && Holds(tab, from, to, i, t) && |tab| == |tab'|
    requires tab' == tab[i := tab[i].(data := tab[i].data.(dtype := 0))]
    ensures Holds(tab', from, to, i, t.(data := t.data.(dtype := 0)))
  {
    Frame(tab, tab', tab[i].child, t.child);
    Frame(tab, tab', tab[i].sibling, t.sibling);
    Rebuild(tab, tab', i, t, t.(data := t.data.(dtype := 0)));
  }

  /** What follows the left parenthesis of a call. */
  function ArgumentList(toks: seq<Token>, env: Env, s: Cursor): Parsed {
    if TokenAt(toks, s.at).TRightParen? then Parsed(Skip(s), Nil)
    else
      var l := ParseParams(toks, env, s.(replayed := true));
      Parsed(Match(toks, l.s, TRightParen), l.t)
  }

  /** The node one operator of a binary level makes. */
  function BinNode(level: nat, toks: seq<Token>, env: Env, s: Cursor, acc: Tree): (r: Parsed)
    requires 1 <= level < LEVEL_CAST && Single(acc) && OpAt(level, TokenAt(toks, s.at)).Some?
    ensures r.s.used >= s.used && r.s.at > s.at && r.s.replayed && Single(r.t)
  {
    var p := ParseBin(level + 1, toks, env, Skip(s));
    if p.t.Nil? then Parsed(Fail(p.s, ERR_EXPECT_OPERATOR), acc)
    else MakeSys(p.s, KBin(OpAt(level, TokenAt(toks, s.at)).value), acc, p.t)
  }

  lemma BinRule(level: nat, toks: seq<Token>, env: Env, s: Cursor)
    requires 1 <= level <= LEVEL_CAST
    ensures ParseBin(level, toks, env, s)
            == if level == LEVEL_CAST then ParseCast(toks, env, s)
               else
                 var p := ParseBin(level + 1, toks, env, s);
                 BinLoop(level, toks, env, p.s, p.t)
  {
    hide BinLoop, ParseCast;
  }

  lemma CastRule(toks: seq<Token>, env: Env, s: Cursor)
    ensures var s1 := Fail(Skip(s).(replayed := true), ERR_UNKNOWN_TYPE);
            var p := ParseCast(toks, env, Match(toks, s1, TRightParen));
            ParseCast(toks, env, s)
            == if TokenAt(toks, s.at).TLeftParen? then
                 if p.t.Node? then Parsed(p.s, p.t.(data := p.t.data.(dtype := 0)))
                 else ParseUnary(toks, env, p.s)
               else ParseUnary(toks, env, s.(replayed := true))
  {
    hide ParseUnary;
  }

  lemma PrimaryRule(toks: seq<Token>, env: Env, s: Cursor)
    ensures var t := TokenAt(toks, s.at);
            var p := ParseAssign(toks, env, Skip(s));
            ParsePrimary(toks, env, s)
            == if t.TIdent? then NewId(Skip(s), env, t.id)
               else if t.TLeftParen? then Parsed(Match(toks, p.s, TRightParen), p.t)
               else if t.TLit? then NewLit(Skip(s), t.kind, t.value)
               else Parsed(Fail(Skip(s), ERR_INVALID_TOKEN), Nil)
  {
    hide ParseAssign;
  }

  lemma BinUnfold(level: nat, toks: seq<Token>, env: Env, s: Cursor, acc: Tree)
    requires 1 <= level < LEVEL_CAST && Single(acc) && OpAt(level, TokenAt(toks, s.at)).Some?
    ensures var q := BinNode(level, toks, env, s, acc);
            BinLoop(level, toks, env, s, acc) == BinLoop(level, toks, env, q.s, q.t)
  {
    hide ParseBin, OpAt;
  }

  lemma BinEnds(level: nat, toks: seq<Token>, env: Env, s: Cursor, acc: Tree)
    requires 1 <= level < LEVEL_CAST && Single(acc) && OpAt(level, TokenAt(toks, s.at)).None? && s.replayed
    ensures BinLoop(level, toks, env, s, acc) == Parsed(s, acc)
  {
  }

  /** The node one postfix operator makes. */
  function PostfixNode(toks: seq<Token>, env: Env, s: Cursor, acc: Tree): (r: Parsed)
    ensures r.s.used >= s.used && r.s.at > s.at && Single(r.t)
  {
    var t := TokenAt(toks, s.at);
    if t.TLeftParen? then
      var p := ArgumentList(toks, env, Skip(s));
      MakeSys(p.s, KFunc, acc, p.t)
    else MakeSys(Skip(s), KStep(if t.TInc? then PostInc else PostDec), acc, Nil)
  }

  lemma PostfixUnfold(toks: seq<Token>, env: Env, s: Cursor, acc: Tree)
    requires Single(acc)
    requires var t := TokenAt(toks, s.at); t.TInc? || t.TDec? || t.TLeftParen?
    ensures var q := PostfixNode(toks, env, s, acc);
            PostfixLoop(toks, env, s, acc) == PostfixLoop(toks, env, q.s.(replayed := true), q.t)
  {
    hide ParseParams;
    var q := PostfixNode(toks, env, s, acc);
    LoopIgnoresReplay(toks, env, q.s, q.t);
  }

  ghost predicate Same(tab: seq<Slot>, was: seq<Slot>, to: nat) {
    |tab| == |was| && to <= |tab| && forall k :: 0 <= k < to ==> tab[k] == was[k]
  }

  class Reader {
    const toks: seq<Token>
    const env: Env
    const table: array<Slot>
    var pos: nat
    var replay: bool
    var current: Token
    var errno: nat
    ghost var used: nat

    ghost predicate Valid()
      reads this, table
    {
      table.Length == NODE_MAX && used <= NODE_MAX
      && (forall j :: 0 <= j < used ==> !table[j].data.kind.KUnknown?)
      && (forall j :: used <= j < NODE_MAX ==> table[j] == Empty)
      && (replay ==> pos > 0 && current == TokenAt(toks, pos - 1))
    }

    ghost function View(): Cursor
      reads this
    {
      Cursor(if replay && pos > 0 then pos - 1 else pos, replay, used, errno)
    }

    /** What a grammar rule promises: the cursor of the specification, the tree it
        names in fresh slots, and the older slots untouched. */
    ghost predicate Made(r: Parsed, was: seq<Slot>, from: nat, i: int)
      reads this, table
    {
      Valid() && View() == r.s && from <= used <= table.Length == |was|
      && Holds(table[..], from, used, i, r.t)
      && Same(table[..], was, from)
    }

    constructor (tokens: seq<Token>, symbols: Env, nodes: array<Slot>)
      requires nodes.Length == NODE_MAX && forall j :: 0 <= j < NODE_MAX ==> nodes[j] == Empty
      ensures Valid() && toks == tokens && env == symbols && table == nodes
      ensures View() == Cursor(0, false, 0, ERR_OK)
    {
      toks, env, table := tokens, symbols, nodes;
      pos, replay, current, errno, used := 0, false, TBad, ERR_OK, 0;
    }

    // ------------------------------------------------------------------ tokens

    method NextToken() returns (t: Token)
      requires Valid()
      modifies this`pos, this`replay, this`current
      ensures Valid() && !replay
      ensures View() == Skip(old(View())) && t == TokenAt(toks, old(View()).at)
      ensures current == t && pos > 0 && t == TokenAt(toks, pos - 1)
    {
      if replay {
        replay := false;
      } else {
        current := TokenAt(toks, pos);
        pos := pos + 1;
      }
      return current;
    }

    method ReplayToken()
      requires Valid() && (replay || (pos > 0 && current == TokenAt(toks, pos - 1)))
      modifies this`replay
      ensures Valid() && View() == Replay(old(View()))
    {
      replay := true;
    }

    method MatchToken(t: Token)
      requires Valid()
      modifies this`pos, this`replay, this`current, this`errno
      ensures Valid() && View() == Match(toks, old(View()), t)
    {
      var token := NextToken();
      if token != t {
        errno := ERR_INVALID_TOKEN;
        ReplayToken();
      }
    }

    // ------------------------------------------------------------------- nodes

    /** finsh_node_allocate: the first unused slot. */
    method Allocate(kind: Kind) returns (i: int)
      requires Valid() && !kind.KUnknown?
      modifies this`used, table
      ensures Valid() && i == if old(used) == NODE_MAX then -1 else old(used)
      ensures used == if i == -1 then old(used) else old(used) + 1
      ensures i >= 0 ==> table[i] == Slot(Blank(kind), -1, -1)
      ensures forall j :: 0 <= j < NODE_MAX && j != i ==> table[j] == old(table[j])
    {
      i := 0;
      while i < NODE_MAX && !table[i].data.kind.KUnknown?
        invariant 0 <= i <= used
      {
        i := i + 1;
      }
      if i == NODE_MAX { return -1; }
      table[i] := table[i].(data := table[i].data.(kind := kind));
      used := used + 1;
    }

    /** finsh_node_new_int and finsh_node_new_long. */
    method NewValue(k: LitKind, v: Word) returns (i: int)
      requires Valid()
      modifies this`used, this`errno, table
      ensures Made(NewLit(old(View()), k, v), old(table[..]), old(used), i)
    {
      i := Allocate(KLit(k));
      if i == -1 {
        errno := ERR_MEMORY_FULL;
        return;
      }
      table[i] := table[i].(data := table[i].data.(value := v));
    }

    method NewIdNode(id: string) returns (i: int)
      requires Valid()
      modifies this`used, this`errno, table
      ensures Made(NewId(old(View()), env, id), old(table[..]), old(used), i)
    {
      var sym := SymbolOf(env, id);
      if sym.NoSym? {
        errno := ERR_UNKNOWN_SYMBOL;
        return -1;
      }
      i := Allocate(KId);
      if i == -1 {
        errno := ERR_MEMORY_FULL;
        return;
      }
      table[i] := table[i].(data := table[i].data.(sym := sym));
    }

    /** make_sys_node. */
    method MakeSysNode(kind: Kind, n1: int, n2: int, ghost from: nat, ghost t1: Tree, ghost t2: Tree) returns (i: int)
      requires Valid() && !kind.KUnknown? && from <= used
      requires Joined(table[..], from, used, n1, t1, n2, t2)
      modifies this`used, this`errno, table
      ensures Made(MakeSys(old(View()), kind, t1, t2), old(table[..]), from, i)
    {
      ghost var tab, k := table[..], used;
      i := Allocate(kind);
      if n1 != -1 && i != -1 {
        table[i] := table[i].(child := n1);
        table[n1] := table[n1].(sibling := n2);
        Link(tab, table[..], from, k, kind, n1, t1, n2, t2);
      } else {
        errno := ERR_NULL_NODE;
      }
    }

    // ------------------------------------------------------------------- rules

    /** The cursor before the token just read. */
    ghost function Before(): Cursor
      reads this
    {
      Replay(View())
    }

    method ProcAssign() returns (i: int)
      requires Valid()
      modifies this, table
      ensures Made(ParseAssign(toks, env, old(View())), old(table[..]), old(used), i)
      decreases Left(toks, View()), 30
    {
      hide ParseBin, MakeSys, Holds, Joined;
      ghost var from := used;
      i := ProcBinary(1);
      ghost var p := ParseBin(1, toks, env, old(View()));
      ghost var mid, to := table[..], used;
      var token := NextToken();
      if token.TAssign? {
        var j := ProcAssign();
        ghost var q := ParseAssign(toks, env, Skip(p.s));
        Both(mid, table[..], from, to, used, i, p.t, j, q.t);
        i := MakeSysNode(KAssign, i, j, from, p.t, q.t);
      } else {
        ReplayToken();
      }
    }

    /** proc_inclusive_or_expr down to proc_multiplicative_expr, which differ only
        in their operator tokens. */
    method ProcBinary(level: nat) returns (i: int)
      requires Valid() && 1 <= level <= LEVEL_CAST
      modifies this, table
      ensures Made(ParseBin(level, toks, env, old(View())), old(table[..]), old(used), i)
      decreases Left(toks, View()), 29 - level
    {
      BinRule(level, toks, env, View());
      hide ParseBin, ParseCast, OpAt, Holds, BinLoop, BinNode, Valid;
      if level == LEVEL_CAST {
        i := ProcCast();
        return;
      }
      i := ProcBinary(level + 1);
      ghost var p := ParseBin(level + 1, toks, env, old(View()));
      i := ProcBinaryLoop(level, i, old(used), p.t);
    }

    method ProcBinaryLoop(level: nat, operand: int, ghost from: nat, ghost tree: Tree) returns (i: int)
      requires Valid() && 1 <= level < LEVEL_CAST && replay && Single(tree)
      requires from <= used <= table.Length && Holds(table[..], from, used, operand, tree)
      modifies this, table
      ensures Made(BinLoop(level, toks, env, old(View()), tree), old(table[..]), from, i)
      decreases Left(toks, View()), 5
    {
      hide ParseBin, ParseCast, OpAt, Holds, BinLoop, BinNode, Valid;
      ghost var acc := tree;
      i := operand;
      var token := NextToken();
      while OpAt(level, token).Some?
        invariant Valid() && !replay && pos > 0 && current == token == TokenAt(toks, pos - 1)
        invariant Before().at >= old(View()).at && from <= used <= table.Length
        invariant Holds(table[..], from, used, i, acc) && Single(acc)
        invariant Same(table[..], old(table[..]), from)
        invariant BinLoop(level, toks, env, Before(), acc) == BinLoop(level, toks, env, old(View()), tree)
        decreases Left(toks, Before())
      {
        ghost var q := BinNode(level, toks, env, Before(), acc);
        OpIsToken(level, token);
        BinUnfold(level, toks, env, Before(), acc);
        i := ProcBinaryOp(level, token, i, from, acc);
        acc := q.t;
        token := NextToken();
      }
      BinEnds(level, toks, env, Before(), acc);
      ReplayToken();
    }

    /** One operator of a binary level with its right operand, its token already
        read. */
    method ProcBinaryOp(level: nat, token: Token, operand: int, ghost from: nat, ghost acc: Tree) returns (i: int)
      requires Valid() && !replay && pos > 0 && token == TokenAt(toks, pos - 1)
      requires 1 <= level < LEVEL_CAST && OpAt(level, token).Some? && Single(acc)
      requires from <= used && Holds(table[..], from, used, operand, acc)
      modifies this, table
      ensures Made(BinNode(level, toks, env, old(Before()), acc), old(table[..]), from, i)
      decreases Left(toks, Before()), 4
    {
      hide OpAt, Holds, Joined, MakeSys, ParseBin;
      OpIsToken(level, token);
      i := operand;
      ghost var mid, to, s := table[..], used, View();
      var j := ProcBinary(level + 1);
      ghost var p := ParseBin(level + 1, toks, env, s);
      Root(table[..], to, used, j, p.t);
      Both(mid, table[..], from, to, used, i, acc, j, p.t);
      if j == -1 {
        errno := ERR_EXPECT_OPERATOR;
      } else {
        i := MakeSysNode(KBin(OpAt(level, token).value), i, j, from, acc, p.t);
      }
    }

    /** The type an (unrecognised) cast leaves in a node: finsh_type_unknown. */
    method SetDataType(i: int, ghost from: nat, ghost t: Tree)
      requires Valid() && t.Node? && from <= i < used && Holds(table[..], from, used, i, t)
      modifies table
      ensures Valid() && Same(table[..], old(table[..]), from)
      ensures Holds(table[..], from, used, i, t.(data := t.data.(dtype := 0)))
    {
      table[i] := table[i].(data := table[i].data.(dtype := 0));
      SetType(old(table[..]), table[..], from, used, i, t);
    }

    method ProcCast() returns (i: int)
      requires Valid()
      modifies this, table
      ensures Made(ParseCast(toks, env, old(View())), old(table[..]), old(used), i)
      decreases Left(toks, View()), 12
    {
      CastRule(toks, env, View());
      hide ParseCast, ParseUnary, Holds, Valid;
      ghost var from := used;
      var token := NextToken();
      if token.TLeftParen? {
        // proc_type: no token of the fragment is a type
        token := NextToken();
        ReplayToken();
        errno := ERR_UNKNOWN_TYPE;
        MatchToken(TRightParen);
        ghost var s := View();
        i := ProcCast();
        ghost var t := ParseCast(toks, env, s).t;
        Root(table[..], from, used, i, t);
        if i != -1 {
          SetDataType(i, from, t);
          return;
        }
      }
      ReplayToken();
      ghost var s, to := View(), used;
      i := ProcUnary();
      Widen(table[..], from, to, used, i, ParseUnary(toks, env, s).t);
    }

    method ProcUnary() returns (i: int)
      requires Valid()
      modifies this, table
      ensures Made(ParseUnary(toks, env, old(View())), old(table[..]), old(used), i)
      decreases Left(toks, View()), 11
    {
      hide ParseCast, ParsePostfix, Holds, Joined, MakeSys;
      ghost var from := used;
      var token := NextToken();
      ghost var p := ParseCast(toks, env, Skip(old(View())));
      if token.TAdd? {
        i := ProcCast();
      } else if token.TSub? {
        var cast := ProcCast();
        ghost var mid, to := table[..], used;
        var zero := NewValue(LongLit, 0);
        Both(mid, table[..], from, to, used, cast, p.t, zero, NewLit(p.s, LongLit, 0).t);
        JoinedSwap(table[..], from, used, cast, p.t, zero, NewLit(p.s, LongLit, 0).t);
        i := MakeSysNode(KBin(Sub), zero, cast, from, NewLit(p.s, LongLit, 0).t, p.t);
      } else if PrefixKind(token).Some? {
        var cast := ProcCast();
        Root(table[..], from, used, cast, p.t);
        i := MakeSysNode(PrefixKind(token).value, cast, -1, from, p.t, Nil);
      } else {
        ReplayToken();
        i := ProcPostfix();
      }
    }

    method ProcPostfix() returns (i: int)
      requires Valid()
      modifies this, table
      ensures Made(ParsePostfix(toks, env, old(View())), old(table[..]), old(used), i)
      decreases Left(toks, View()), 10
    {
      hide ParsePrimary, PostfixLoop, Holds, PostfixNode, Valid;
      ghost var from, goal := used, ParsePostfix(toks, env, View());
      i := ProcPrimary();
      ghost var acc := ParsePrimary(toks, env, old(View())).t;
      LoopIgnoresReplay(toks, env, View(), acc);
      var token := NextToken();
      while token.TInc? || token.TDec? || token.TLeftParen?
        invariant Valid() && !replay && pos > 0 && current == token == TokenAt(toks, pos - 1)
        invariant Before().at > old(View()).at && used >= from
        invariant Holds(table[..], from, used, i, acc) && Single(acc)
        invariant Same(table[..], old(table[..]), from)
        invariant PostfixLoop(toks, env, Before(), acc) == goal
        decreases Left(toks, Before())
      {
        ghost var q := PostfixNode(toks, env, Before(), acc);
        PostfixUnfold(toks, env, Before(), acc);
        i := ProcPostfixOp(token, i, from, acc);
        acc := q.t;
        token := NextToken();
      }
      PostfixEnds(toks, env, Before(), acc);
      ReplayToken();
    }

    /** One postfix operator, its token already read. */
    method ProcPostfixOp(token: Token, operand: int, ghost from: nat, ghost acc: Tree) returns (i: int)
      requires Valid() && !replay && pos > 0 && token == TokenAt(toks, pos - 1)
      requires token.TInc? || token.TDec? || token.TLeftParen?
      requires from <= used && Holds(table[..], from, used, operand, acc)
      modifies this, table
      ensures Made(PostfixNode(toks, env, old(Before()), acc), old(table[..]), from, i)
      decreases Left(toks, Before()), 4
    {
      hide Holds, Joined, MakeSys, ArgumentList;
      if token.TLeftParen? {
        ghost var mid, to := table[..], used;
        var params := ProcArguments();
        ghost var p := ArgumentList(toks, env, old(View()));
        Both(mid, table[..], from, to, used, operand, acc, params, p.t);
        i := MakeSysNode(KFunc, operand, params, from, acc, p.t);
      } else {
        Root(table[..], from, used, operand, acc);
        if token.TInc? {
          i := MakeSysNode(KStep(PostInc), operand, -1, from, acc, Nil);
        } else {
          i := MakeSysNode(KStep(PostDec), operand, -1, from, acc, Nil);
        }
      }
    }

    /** The parenthesised part of a call, after the left parenthesis. */
    method ProcArguments() returns (i: int)
      requires Valid() && !replay
      modifies this, table
      ensures Made(ArgumentList(toks, env, old(View())), old(table[..]), old(used), i)
      decreases Left(toks, View()), 32
    {
      hide ParseParams;
      i := -1;
      var token := NextToken();
      if !token.TRightParen? {
        ReplayToken();
        i := ProcParamList();
        ghost var mid := table[..];
        MatchToken(TRightParen);
      }
    }

    /** proc_identifier after a replay: the token is read again. */
    method ProcIdentifier()
      requires Valid() && !replay && pos > 0 && current == TokenAt(toks, pos - 1)
      modifies this`pos, this`replay, this`current
      ensures Valid() && View() == old(View())
    {
      ReplayToken();
      var token := NextToken();
    }

    /** `( expr )`, the left parenthesis already read. */
    method ProcParenthesised() returns (i: int)
      requires Valid()
      modifies this, table
      ensures var p := ParseAssign(toks, env, old(View()));
              Made(Parsed(Match(toks, p.s, TRightParen), p.t), old(table[..]), old(used), i)
      decreases Left(toks, View()), 31
    {
      hide ParseAssign;
      i := ProcAssign();
      MatchToken(TRightParen);
    }

    method ProcPrimary() returns (i: int)
      requires Valid()
      modifies this, table
      ensures Made(ParsePrimary(toks, env, old(View())), old(table[..]), old(used), i)
      decreases Left(toks, View()), 9
    {
      hide ParsePrimary, ParseAssign, NewId, NewLit, Holds, Valid, Same, Made;
      PrimaryRule(toks, env, View());
      var token := NextToken();
      match token {
        case TIdent(id) =>
          ProcIdentifier();
          i := NewIdNode(id);
        case TLeftParen =>
          i := ProcParenthesised();
        case TLit(k, v) =>
          i := NewValue(k, v);
        case _ =>
          i := RejectToken();
      }
    }

    /** A token that starts no expression. */
    method RejectToken() returns (i: int)
      requires Valid()
      modifies this`errno
      ensures Made(Parsed(Fail(old(View()), ERR_INVALID_TOKEN), Nil), table[..], old(used), i)
    {
      errno := ERR_INVALID_TOKEN;
      i := -1;
      NoTree(table[..], used, used);
    }

    /** `finsh_node_sibling(last) = j`, extending the list that starts at i. */
    method Extend(i: int, last: int, j: int, ghost from: nat, ghost chain: Tree, ghost u: Tree)
      requires Valid() && chain.Node? && last == LastSlot(table[..], i, chain)
      requires Joined(table[..], from, used, i, chain, j, u)
      modifies table
      ensures Valid() && Same(table[..], old(table[..]), from)
      ensures Holds(table[..], from, used, i, Append(chain, u))
      ensures u.Node? && Single(u) ==> j == LastSlot(table[..], i, Append(chain, u))
      ensures u.Nil? ==> last == LastSlot(table[..], i, Append(chain, u))
    {
      LastInSlots(table[..], i, chain);
      table[last] := table[last].(sibling := j);
      AttachLast(old(table[..]), table[..], i, chain, j, u);
    }

    method ProcParamList() returns (i: int)
      requires Valid()
      modifies this, table
      ensures Made(ParseParams(toks, env, old(View())), old(table[..]), old(used), i)
      decreases Left(toks, View()), 31
    {
      hide ParseAssign, Holds, Joined, Valid, LastSlot, Append, ParamLoop, Growing, ParamNext;
      ghost var from := used;
      i := ProcAssign();
      ghost var p := ParseAssign(toks, env, old(View()));
      Root(table[..], from, used, i, p.t);
      if i == -1 { return; }
      ghost var chain, rest := p.t, ParamLoop(toks, env, p.s);
      ghost var whole := WithSibling(p.t, rest.t);
      StartChain(table[..], i, p.t, rest.t);
      var assign := i;
      var token := NextToken();
      assert Growing(toks, env, Before(), chain, rest.s, whole) by { GrowingStart(toks, env, p, Before()); }
      while token.TComma?
        invariant Valid() && !replay && pos > 0 && current == token == TokenAt(toks, pos - 1)
        invariant Before().at > old(View()).at && from <= used <= table.Length
        invariant Holds(table[..], from, used, i, chain) && chain.Node?
        invariant assign == LastSlot(table[..], i, chain)
        invariant Same(table[..], old(table[..]), from)
        invariant Growing(toks, env, Before(), chain, rest.s, whole)
        decreases Left(toks, Before())
      {
        GrowingStep(toks, env, Before(), chain, rest.s, whole);
        ghost var q := ParseAssign(toks, env, View());
        assign := ProcParameter(i, assign, from, chain);
        chain := Append(chain, q.t);
        token := NextToken();
      }
      GrowingEnds(toks, env, Before(), chain, rest.s, whole);
      ReplayToken();
    }

    /** One more parameter, behind its comma, hung on the list that starts at i. */
    method ProcParameter(i: int, assign: int, ghost from: nat, ghost chain: Tree) returns (last: int)
      requires Valid() && !replay && from <= used && chain.Node? && assign == LastSlot(table[..], i, chain)
      requires Holds(table[..], from, used, i, chain)
      modifies this, table
      ensures var q := ParseAssign(toks, env, old(View()));
              Valid() && View() == ParamNext(q) && used >= old(used) && Append(chain, q.t).Node?
              && Holds(table[..], from, used, i, Append(chain, q.t))
              && last == LastSlot(table[..], i, Append(chain, q.t))
      ensures Same(table[..], old(table[..]), from)
      decreases Left(toks, View()), 31
    {
      hide ParseAssign, Holds, Joined, LastSlot, Append;
      ghost var s, mid, to := View(), table[..], used;
      var j := ProcAssign();
      ghost var q := ParseAssign(toks, env, s);
      Root(table[..], to, used, j, q.t);
      LastFrame(mid, table[..], from, to, i, chain);
      Both(mid, table[..], from, to, used, i, chain, j, q.t);
      Extend(i, assign, j, from, chain, q.t);
      if j != -1 {
        last := j;
      } else {
        last := assign;
        errno := ERR_EXPECT_OPERATOR;
      }
    }

    /** proc_expr_statement. */
    method ProcStatement() returns (i: int)
      requires Valid()
      modifies this, table
      ensures Made(ParseStatement(toks, env, old(View())), old(table[..]), old(used), i)
    {
      hide ParseAssign;
      var token := NextToken();
      i := -1;
      if !token.TSemicolon? {
        ReplayToken();
        i := ProcAssign();
        MatchToken(TSemicolon);
      }
    }

    /** finsh_parser_run: statements linked by sibling under the root. */
    method ParserRun() returns (root: int)
      requires Valid()
      modifies this, table
      ensures Made(ParseProgram(toks, env, old(View()), false), old(table[..]), old(used), root)
    {
      hide ParseStatement, ParseProgram, Holds, Valid, LastSlot, Append;
      ghost var from, goal := used, ParseProgram(toks, env, View(), false);
      ghost var chain := Nil;
      ProgramIgnoresReplay(toks, env, View(), false);
      NoTree(table[..], from, used);
      AppendToNil(goal.t);
      root := -1;
      var node := -1;
      var token := NextToken();
      while !token.TEof? && !token.TBad?
        invariant Valid() && !replay && pos > 0 && current == token == TokenAt(toks, pos - 1)
        invariant from <= used <= table.Length && Same(table[..], old(table[..]), from)
        invariant Holds(table[..], from, used, root, chain) && (root != -1) == chain.Node?
        invariant chain.Node? ==> node == LastSlot(table[..], root, chain)
        invariant var q := ParseProgram(toks, env, Before(), chain.Node?);
                  q.s == goal.s && Append(chain, q.t) == goal.t
        decreases Left(toks, Before())
      {
        ghost var s := Before();
        ghost var p := ParseStatement(toks, env, s);
        ProgramRule(toks, env, s, chain.Node?);
        ghost var tail := ParseProgram(toks, env, ProgramNext(toks, s, p, chain.Node?), chain.Node? || p.t.Node?).t;
        AppendStep(chain, p.t, tail);
        root, node := LinkStatement(token, root, node, from, chain);
        chain := Append(chain, p.t);
        ProgramIgnoresReplay(toks, env, View(), chain.Node?);
        token := NextToken();
      }
      ProgramRule(toks, env, Before(), chain.Node?);
      AppendNil(chain);
    }

    /** One turn of that loop, the first token of the statement already read. */
    method LinkStatement(token: Token, first: int, last: int, ghost from: nat, ghost chain: Tree)
      returns (root: int, node: int)
      requires Valid() && !replay && pos > 0 && current == token == TokenAt(toks, pos - 1)
      requires from <= used <= table.Length && Holds(table[..], from, used, first, chain)
      requires (first != -1) == chain.Node? && (chain.Node? ==> last == LastSlot(table[..], first, chain))
      modifies this, table
      ensures var s := old(Before());
              var p := ParseStatement(toks, env, s);
              Made(Parsed(ProgramNext(toks, s, p, chain.Node?), Append(chain, p.t)), old(table[..]), from, root)
              && (root != -1) == Append(chain, p.t).Node?
              && (Append(chain, p.t).Node? ==> node == LastSlot(table[..], root, Append(chain, p.t)))
    {
      hide ParseStatement, Holds, Joined, LastSlot, Append, Valid;
      ReplayToken();
      ghost var s, mid, to := View(), table[..], used;
      ghost var p := ParseStatement(toks, env, s);
      root, node := first, last;
      var j := ProcStatement();
      Root(table[..], to, used, j, p.t);
      if root != -1 {
        Both(mid, table[..], from, to, used, root, chain, j, p.t);
        LastFrame(mid, table[..], from, to, root, chain);
        Extend(root, node, j, from, chain, p.t);
        if j != -1 {
          node := j;
        } else if !token.TIdent? {
          var skipped := NextToken();
        }
      } else {
        node := j;
        root := node;
        AppendToNil(p.t);
        SingleLast(table[..], j, p.t);
        Widen(table[..], from, to, used, j, p.t);
      }
    }

    static lemma OpIsToken(level: nat, t: Token)
      requires OpAt(level, t).Some?
      ensures !t.TEof?
    {
    }
  }
}
