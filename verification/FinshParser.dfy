/** The recursive-descent expression parser of finsh_parser.c as functions over a
    token sequence, and the proof that it inverts linearisation. */
module FinshParser {
  import opened Basics
  import opened FinshOperators
  import opened FinshMachine
  import opened FinshSyntax

  const NODE_MAX: nat := 16

  const ERR_OK: nat := 0
  const ERR_INVALID_TOKEN: nat := 1
  const ERR_UNKNOWN_TYPE: nat := 3
  const ERR_EXPECT_OPERATOR: nat := 5
  const ERR_MEMORY_FULL: nat := 6
  const ERR_UNKNOWN_SYMBOL: nat := 13
  const ERR_NULL_NODE: nat := 14

  /** The tokens of the expression language; type keywords, character and string
      literals are not among them. */
  datatype Token =
    | TIdent(id: string)
    | TLit(kind: LitKind, value: Word)
    | TLeftParen | TRightParen | TComma | TSemicolon
    | TMul | TAdd | TInc | TSub | TDec | TDiv | TMod | TAssign
    | TAnd | TOr | TXor | TBitwise | TShl | TShr
    | TBad | TEof

  /** The parser's cursor: `at` is the next token to be read. `replayed` is the
      replay flag; setting it again does nothing. */
  datatype Cursor = Cursor(at: nat, replayed: bool, used: nat, err: nat)

  function TokenAt(toks: seq<Token>, p: nat): Token {
    if p < |toks| then toks[p] else TEof
  }

  function Skip(s: Cursor): Cursor { s.(at := s.at + 1, replayed := false) }

  function Replay(s: Cursor): Cursor {
    if s.replayed || s.at == 0 then s.(replayed := true) else s.(at := s.at - 1, replayed := true)
  }

  function Fail(s: Cursor, err: nat): Cursor { s.(err := err) }

  /** match_token. */
  function Match(toks: seq<Token>, s: Cursor, t: Token): (r: Cursor)
    ensures s.at <= r.at
  {
    if TokenAt(toks, s.at) == t then Skip(s) else Fail(s.(replayed := true), ERR_INVALID_TOKEN)
  }

  // ------------------------------------------------------------------- nodes

  datatype Parsed = Parsed(s: Cursor, t: Tree)

  function NewLeaf(s: Cursor, d: Data): Parsed {
    if s.used >= NODE_MAX then Parsed(Fail(s, ERR_MEMORY_FULL), Nil)
    else Parsed(s.(used := s.used + 1), Node(d, Nil, Nil))
  }

  function NewId(s: Cursor, env: Env, id: string): Parsed {
    var sym := SymbolOf(env, id);
    if sym.NoSym? then Parsed(Fail(s, ERR_UNKNOWN_SYMBOL), Nil)
    else NewLeaf(s, Blank(KId).(sym := sym))
  }

  function NewLit(s: Cursor, k: LitKind, v: Word): Parsed {
    NewLeaf(s, Blank(KLit(k)).(value := v))
  }

  /** A tree as the parser returns it: not yet linked to a sibling. */
  predicate Single(t: Tree) {
    t.Node? ==> t.sibling.Nil?
  }

  /** make_sys_node. */
  function MakeSys(s: Cursor, k: Kind, n1: Tree, n2: Tree): Parsed {
    if s.used >= NODE_MAX then Parsed(Fail(s, ERR_NULL_NODE), Nil)
    else
      var s' := s.(used := s.used + 1);
      if n1.Nil? then Parsed(Fail(s', ERR_NULL_NODE), Node(Blank(k), Nil, Nil))
      else Parsed(s', Over(k, n1, n2))
  }

  // --------------------------------------------------------- precedence levels

  const LEVEL_CAST: nat := 7

  /** The operator a token stands for at one of the six binary levels. */
  function OpAt(level: nat, t: Token): Option<BinOp> {
    if level == 1 then (if t.TOr? then Some(Or) else None)
    else if level == 2 then (if t.TXor? then Some(Xor) else None)
    else if level == 3 then (if t.TAnd? then Some(And) else None)
    else if level == 4 then (if t.TShl? then Some(Shl) else if t.TShr? then Some(Shr) else None)
    else if level == 5 then (if t.TSub? then Some(Sub) else if t.TAdd? then Some(Add) else None)
    else if level == 6 then
      (if t.TMul? then Some(Mul) else if t.TDiv? then Some(Div) else if t.TMod? then Some(Mod) else None)
    else None
  }

  function Left(toks: seq<Token>, s: Cursor): nat {
    if s.at < |toks| then |toks| - s.at else 0
  }

  /** proc_assign_expr. */
  function ParseAssign(toks: seq<Token>, env: Env, s: Cursor): (r: Parsed)
    ensures r.s.replayed && r.s.at > s.at && r.s.used >= s.used
    ensures Single(r.t)
    decreases Left(toks, s), 30
  {
    var p := ParseBin(1, toks, env, s);
    if TokenAt(toks, p.s.at).TAssign? then
      var q := ParseAssign(toks, env, Skip(p.s));
      MakeSys(q.s, KAssign, p.t, q.t)
    else p
  }

  /** The six binary levels, proc_inclusive_or_expr to proc_multiplicative_expr. */
  function ParseBin(level: nat, toks: seq<Token>, env: Env, s: Cursor): (r: Parsed)
    requires 1 <= level <= LEVEL_CAST
    ensures r.s.replayed && r.s.at > s.at && r.s.used >= s.used
    ensures Single(r.t)
    decreases Left(toks, s), 29 - level
  {
    if level == LEVEL_CAST then ParseCast(toks, env, s)
    else
      var p := ParseBin(level + 1, toks, env, s);
      BinLoop(level, toks, env, p.s, p.t)
  }

  /** The while loop of a binary level. */
  function BinLoop(level: nat, toks: seq<Token>, env: Env, s: Cursor, acc: Tree): (r: Parsed)
    requires 1 <= level < LEVEL_CAST
    requires Single(acc)
    ensures r.s.replayed && r.s.at >= s.at && r.s.used >= s.used
    ensures Single(r.t)
    decreases Left(toks, s), 5
  {
    var op := OpAt(level, TokenAt(toks, s.at));
    if op.None? then Parsed(s.(replayed := true), acc)
    else
      var p := ParseBin(level + 1, toks, env, Skip(s));
      if p.t.Nil? then BinLoop(level, toks, env, Fail(p.s, ERR_EXPECT_OPERATOR), acc)
      else
        var q := MakeSys(p.s, KBin(op.value), acc, p.t);
        BinLoop(level, toks, env, q.s, q.t)
  }

  /** proc_cast_expr. No token of the fragment is a type, so after a left
      parenthesis proc_type replays and reports an error. */
  function ParseCast(toks: seq<Token>, env: Env, s: Cursor): (r: Parsed)
    ensures r.s.replayed && r.s.at > s.at && r.s.used >= s.used
    ensures Single(r.t)
    decreases Left(toks, s), 12
  {
    if TokenAt(toks, s.at).TLeftParen? then
      var s1 := Fail(Skip(s).(replayed := true), ERR_UNKNOWN_TYPE);
      var p := ParseCast(toks, env, Match(toks, s1, TRightParen));
      if p.t.Node? then Parsed(p.s, p.t.(data := p.t.data.(dtype := 0)))
      else ParseUnary(toks, env, p.s)
    else ParseUnary(toks, env, s.(replayed := true))
  }

  /** The node kind a prefix operator token makes over its operand. */
  function PrefixKind(t: Token): Option<Kind> {
    match t
    case TInc => Some(KStep(PreInc))
    case TDec => Some(KStep(PreDec))
    case TBitwise => Some(KBitwise)
    case TMul => Some(KGetValue)
    case TAnd => Some(KGetAddr)
    case _ => None
  }

  /** proc_unary_expr. */
  function ParseUnary(toks: seq<Token>, env: Env, s: Cursor): (r: Parsed)
    ensures r.s.replayed && r.s.at > s.at && r.s.used >= s.used
    ensures Single(r.t)
    decreases Left(toks, s), 11
  {
    var t := TokenAt(toks, s.at);
    if t.TAdd? then ParseCast(toks, env, Skip(s))
    else if t.TSub? then
      var p := ParseCast(toks, env, Skip(s));
      var z := NewLit(p.s, LongLit, 0);
      MakeSys(z.s, KBin(Sub), z.t, p.t)
    else if PrefixKind(t).Some? then
      var p := ParseCast(toks, env, Skip(s));
      MakeSys(p.s, PrefixKind(t).value, p.t, Nil)
    else ParsePostfix(toks, env, s.(replayed := true))
  }

  /** proc_postfix_expr. */
  function ParsePostfix(toks: seq<Token>, env: Env, s: Cursor): (r: Parsed)
    ensures r.s.replayed && r.s.at > s.at && r.s.used >= s.used
    ensures Single(r.t)
    decreases Left(toks, s), 10
  {
    var p := ParsePrimary(toks, env, s);
    PostfixLoop(toks, env, p.s, p.t)
  }

  function PostfixLoop(toks: seq<Token>, env: Env, s: Cursor, acc: Tree): (r: Parsed)
    requires Single(acc)
    ensures r.s.replayed && r.s.at >= s.at && r.s.used >= s.used
    ensures Single(r.t)
    decreases Left(toks, s), 5
  {
    var t := TokenAt(toks, s.at);
    if t.TInc? || t.TDec? then
      var q := MakeSys(Skip(s), KStep(if t.TInc? then PostInc else PostDec), acc, Nil);
      PostfixLoop(toks, env, q.s, q.t)
    else if t.TLeftParen? then
      var p := if TokenAt(toks, s.at + 1).TRightParen? then Parsed(Skip(Skip(s)), Nil)
               else
                 var l := ParseParams(toks, env, Skip(s).(replayed := true));
                 Parsed(Match(toks, l.s, TRightParen), l.t);
      var q := MakeSys(p.s, KFunc, acc, p.t);
      PostfixLoop(toks, env, q.s, q.t)
    else Parsed(s.(replayed := true), acc)
  }

  /** proc_primary_expr. */
  function ParsePrimary(toks: seq<Token>, env: Env, s: Cursor): (r: Parsed)
    ensures r.s.at > s.at && r.s.used >= s.used
    ensures Single(r.t)
    decreases Left(toks, s), 9
  {
    match TokenAt(toks, s.at)
    case TIdent(id) => NewId(Skip(s), env, id)
    case TLeftParen =>
      var p := ParseAssign(toks, env, Skip(s));
      Parsed(Match(toks, p.s, TRightParen), p.t)
    case TLit(k, v) => NewLit(Skip(s), k, v)
    case _ => Parsed(Fail(Skip(s), ERR_INVALID_TOKEN), Nil)
  }

  /** proc_param_list: expressions linked by sibling. */
  function ParseParams(toks: seq<Token>, env: Env, s: Cursor): (r: Parsed)
    ensures r.s.replayed && r.s.at > s.at && r.s.used >= s.used
    decreases Left(toks, s), 31
  {
    var p := ParseAssign(toks, env, s);
    if p.t.Nil? then p
    else
      var q := ParamLoop(toks, env, p.s);
      Parsed(q.s, WithSibling(p.t, q.t))
  }

  function ParamLoop(toks: seq<Token>, env: Env, s: Cursor): (r: Parsed)
    ensures r.s.replayed && r.s.at >= s.at && r.s.used >= s.used
    decreases Left(toks, s), 5
  {
    if !TokenAt(toks, s.at).TComma? then Parsed(s.(replayed := true), Nil)
    else
      var p := ParseAssign(toks, env, Skip(s));
      if p.t.Nil? then ParamLoop(toks, env, Fail(p.s, ERR_EXPECT_OPERATOR))
      else
        var q := ParamLoop(toks, env, p.s);
        Parsed(q.s, WithSibling(p.t, q.t))
  }

  /** proc_expr_statement. */
  function ParseStatement(toks: seq<Token>, env: Env, s: Cursor): (r: Parsed)
    ensures r.s.at > s.at && r.s.used >= s.used && Single(r.t)
  {
    if TokenAt(toks, s.at).TSemicolon? then Parsed(Skip(s), Nil)
    else
      var p := ParseAssign(toks, env, s.(replayed := true));
      Parsed(Match(toks, p.s, TSemicolon), p.t)
  }

  /** The loop of finsh_parser_run; `started` says there is a root already. When
      a later statement is empty the source reads one token too many, unless the
      statement began with an identifier. */
  function ParseProgram(toks: seq<Token>, env: Env, s: Cursor, started: bool): (r: Parsed)
    ensures r.s.used >= s.used
    decreases Left(toks, s)
  {
    var t := TokenAt(toks, s.at);
    if t.TEof? || t.TBad? then Parsed(Skip(s), Nil)
    else
      var p := ParseStatement(toks, env, s.(replayed := true));
      if p.t.Node? then
        var q := ParseProgram(toks, env, p.s, true);
        Parsed(q.s, WithSibling(p.t, q.t))
      else ParseProgram(toks, env, if started && !t.TIdent? then Skip(p.s) else p.s, started)
  }

  // ------------------------------------------------------------ linearisation

  function LevelOf(op: BinOp): (l: nat)
    ensures 1 <= l <= 6
  {
    match op
    case Or => 1
    case Xor => 2
    case And => 3
    case Shl => 4
    case Shr => 4
    case Add => 5
    case Sub => 5
    case Mul => 6
    case Div => 6
    case Mod => 6
  }

  function Level(e: Expr): nat {
    match e
    case Assign(_, _) => 0
    case Bin(op, _, _) => LevelOf(op)
    case Neg(_) => 7
    case BitNot(_) => 7
    case Deref(_) => 7
    case AddrOf(_) => 7
    case Incr(op, _) => if op.PreInc? || op.PreDec? then 7 else 8
    case Call(_, _) => 8
    case Lit(_, _) => 9
    case Name(_) => 9
  }

  /** The tree needs no parentheses: binary operators associate to the left,
      assignment to the right. */
  predicate Fits(e: Expr, env: Env) {
    match e
    case Lit(_, _) => true
    case Name(id) => !SymbolOf(env, id).NoSym?
    case Neg(x) => Fits(x, env) && Level(x) >= 7
    case BitNot(x) => Fits(x, env) && Level(x) >= 7
    case Deref(x) => Fits(x, env) && Level(x) >= 7
    case AddrOf(x) => Fits(x, env) && Level(x) >= 7
    case Incr(op, x) => Fits(x, env) && Level(x) >= Level(e)
    case Bin(op, x, y) => Fits(x, env) && Fits(y, env) && Level(x) >= LevelOf(op) && Level(y) > LevelOf(op)
    case Assign(x, y) => Fits(x, env) && Fits(y, env) && Level(x) >= 1
    case Call(f, args) => !SymbolOf(env, f).NoSym? && FitsArgs(args, env)
  }

  predicate FitsArgs(args: Args, env: Env) {
    match args
    case End => true
    case More(e, t) => Fits(e, env) && FitsArgs(t, env)
  }

  function OpToken(op: BinOp): Token {
    match op
    case Or => TOr
    case Xor => TXor
    case And => TAnd
    case Shl => TShl
    case Shr => TShr
    case Add => TAdd
    case Sub => TSub
    case Mul => TMul
    case Div => TDiv
    case Mod => TMod
  }

  function Linear(e: Expr): (ts: seq<Token>)
    ensures |ts| > 0
  {
    match e
    case Lit(k, v) => [TLit(k, v)]
    case Name(id) => [TIdent(id)]
    case Neg(x) => [TSub] + Linear(x)
    case BitNot(x) => [TBitwise] + Linear(x)
    case Deref(x) => [TMul] + Linear(x)
    case AddrOf(x) => [TAnd] + Linear(x)
    case Incr(op, x) =>
      var t := if op.PreInc? || op.PostInc? then TInc else TDec;
      if op.PreInc? || op.PreDec? then [t] + Linear(x) else Linear(x) + [t]
    case Bin(op, x, y) => Linear(x) + [OpToken(op)] + Linear(y)
    case Assign(x, y) => Linear(x) + [TAssign] + Linear(y)
    case Call(f, args) => [TIdent(f), TLeftParen] + LinearArgs(args) + [TRightParen]
  }

  function LinearArgs(args: Args): seq<Token> {
    match args
    case End => []
    case More(e, t) => Linear(e) + LinearRest(t)
  }

  function LinearRest(args: Args): seq<Token> {
    match args
    case End => []
    case More(e, t) => [TComma] + Linear(e) + LinearRest(t)
  }

  /** How many nodes an expression takes from the table. */
  function Nodes(e: Expr): nat {
    match e
    case Lit(_, _) => 1
    case Name(_) => 1
    case Neg(x) => 2 + Nodes(x)
    case BitNot(x) => 1 + Nodes(x)
    case Deref(x) => 1 + Nodes(x)
    case AddrOf(x) => 1 + Nodes(x)
    case Incr(_, x) => 1 + Nodes(x)
    case Bin(_, x, y) => 1 + Nodes(x) + Nodes(y)
    case Assign(x, y) => 1 + Nodes(x) + Nodes(y)
    case Call(_, args) => 2 + NodesOf(args)
  }

  function NodesOf(args: Args): nat {
    match args case End => 0 case More(e, t) => Nodes(e) + NodesOf(t)
  }

  // --------------------------------------------------------------- the inverse

  ghost predicate Reads(toks: seq<Token>, at: nat, ts: seq<Token>) {
    at + |ts| <= |toks| && toks[at..at + |ts|] == ts
  }

  lemma ReadsSplit(toks: seq<Token>, at: nat, a: seq<Token>, b: seq<Token>)
    requires Reads(toks, at, a + b)
    ensures Reads(toks, at, a) && Reads(toks, at + |a|, b)
  {
    assert toks[at..at + |a|] == (a + b)[..|a|];
    assert toks[at + |a|..at + |a| + |b|] == (a + b)[|a|..];
  }

  lemma ReadsOne(toks: seq<Token>, at: nat, t: Token)
    requires Reads(toks, at, [t])
    ensures TokenAt(toks, at) == t
  {
    assert toks[at..at + 1][0] == t;
  }

  /** The token ends an expression of this level: it is no operator of the level
      or of a tighter one, and no postfix. */
  predicate Stops(t: Token, level: nat) {
    !t.TInc? && !t.TDec? && !t.TLeftParen?
    && (level == 0 ==> !t.TAssign?)
    && forall l :: level <= l <= 6 ==> OpAt(l, t).None?
  }

  /** The cursor after an expression has been read. */
  function After(s: Cursor, e: Expr): Cursor {
    s.(at := s.at + |Linear(e)|, replayed := true, used := s.used + Nodes(e))
  }

  ghost predicate Ready(toks: seq<Token>, env: Env, s: Cursor, e: Expr) {
    Fits(e, env) && Reads(toks, s.at, Linear(e)) && s.used + Nodes(e) <= NODE_MAX
  }

  lemma {:induction false} FirstToken(e: Expr, env: Env)
    requires Fits(e, env)
    ensures var t := Linear(e)[0];
            !t.TLeftParen? && !t.TRightParen? && !t.TSemicolon? && !t.TEof? && !t.TBad?
            && (Level(e) >= 8 ==> t.TIdent? || t.TLit?)
  {
    match e
    case Incr(op, x) => FirstToken(x, env);
    case Bin(_, x, _) => FirstToken(x, env);
    case Assign(x, _) => FirstToken(x, env);
    case _ =>
  }

  lemma OpLevels(op: BinOp, level: nat)
    requires 1 <= level <= 6
    ensures OpAt(level, OpToken(op)) == if level == LevelOf(op) then Some(op) else None
    ensures !OpToken(op).TInc? && !OpToken(op).TDec? && !OpToken(op).TLeftParen? && !OpToken(op).TAssign?
  {
  }

  lemma OpStops(op: BinOp)
    ensures Stops(OpToken(op), LevelOf(op) + 1)
  {
    forall l | LevelOf(op) + 1 <= l <= 6 ensures OpAt(l, OpToken(op)).None? {
      OpLevels(op, l);
    }
  }

  /** One turn of a binary loop. */
  lemma BinLoopTurn(level: nat, toks: seq<Token>, env: Env, s: Cursor, acc: Tree, op: BinOp, p: Parsed)
    requires Single(acc)
    requires 1 <= level < LEVEL_CAST && acc.Node? && p.t.Node? && p.s.used < NODE_MAX
    requires OpAt(level, TokenAt(toks, s.at)) == Some(op) && ParseBin(level + 1, toks, env, Skip(s)) == p
    ensures BinLoop(level, toks, env, s, acc)
            == BinLoop(level, toks, env, p.s.(used := p.s.used + 1), Over(KBin(op), acc, p.t))
  {
    hide ParseBin, OpAt;
  }

  lemma BinShape(op: BinOp, x: Expr, y: Expr, env: Env)
    ensures var e := Bin(op, x, y);
            Linear(e) == Linear(x) + [OpToken(op)] + Linear(y) && Nodes(e) == Nodes(x) + Nodes(y) + 1
            && Lower(e, env) == Over(KBin(op), Lower(x, env), Lower(y, env))
            && (Fits(e, env) ==>
                  Fits(x, env) && Fits(y, env) && Level(x) >= LevelOf(op) && Level(y) > LevelOf(op))
  {
  }

  /** At a binary level, reading an expression of that level or a tighter one
      leaves the loop of the level with the expression's tree in hand. */
  lemma {:induction false} BinContinues(level: nat, e: Expr, toks: seq<Token>, env: Env, s: Cursor)
    requires 1 <= level <= 6 && Level(e) >= level && Ready(toks, env, s, e)
    requires Stops(TokenAt(toks, s.at + |Linear(e)|), level + 1)
    ensures ParseBin(level, toks, env, s) == BinLoop(level, toks, env, After(s, e), Lower(e, env))
    decreases e, 30 - 2 * level
  {
    hide BinLoop, ParseCast, Linear, Lower, Fits, Nodes, Stops;
    if Level(e) > level {
      BinDone(level + 1, e, toks, env, s);
    } else {
      BinOperator(e.bop, e.l, e.r, toks, env, s);
    }
  }

  lemma {:induction false} BinOperator(op: BinOp, x: Expr, y: Expr, toks: seq<Token>, env: Env, s: Cursor)
    requires Ready(toks, env, s, Bin(op, x, y))
    requires Stops(TokenAt(toks, s.at + |Linear(Bin(op, x, y))|), LevelOf(op) + 1)
    ensures ParseBin(LevelOf(op), toks, env, s)
            == BinLoop(LevelOf(op), toks, env, After(s, Bin(op, x, y)), Lower(Bin(op, x, y), env))
    decreases Bin(op, x, y), 0
  {
    hide ParseBin, BinLoop, Stops, OpAt, Linear, Lower, Fits, Nodes, LevelOf;
    BinShape(op, x, y, env);
    var level := LevelOf(op);
    var o := [OpToken(op)];
    ReadsSplit(toks, s.at, Linear(x) + o, Linear(y));
    ReadsSplit(toks, s.at, Linear(x), o);
    var s1 := After(s, x);
    ReadsOne(toks, s1.at, OpToken(op));
    OpStops(op);
    OpLevels(op, level);
    BinContinues(level, x, toks, env, s);
    BinDone(level + 1, y, toks, env, Skip(s1));
    BinLoopTurn(level, toks, env, s1, Lower(x, env), op, Parsed(After(Skip(s1), y), Lower(y, env)));
  }

  lemma {:induction false} BinDone(level: nat, e: Expr, toks: seq<Token>, env: Env, s: Cursor)
    requires 1 <= level <= 7 && Level(e) >= level && Ready(toks, env, s, e)
    requires Stops(TokenAt(toks, s.at + |Linear(e)|), level)
    ensures ParseBin(level, toks, env, s) == Parsed(After(s, e), Lower(e, env))
    decreases e, 31 - 2 * level
  {
    if level == 7 {
      CastDone(e, toks, env, s);
    } else {
      BinContinues(level, e, toks, env, s);
    }
  }

  lemma {:induction false} CastDone(e: Expr, toks: seq<Token>, env: Env, s: Cursor)
    requires Level(e) >= 7 && Ready(toks, env, s, e)
    requires Stops(TokenAt(toks, s.at + |Linear(e)|), 7)
    ensures ParseCast(toks, env, s) == Parsed(After(s, e), Lower(e, env))
    decreases e, 3
  {
    hide ParseUnary, ParsePostfix, PostfixLoop, Linear, Fits, Nodes;
    FirstToken(e, env);
    assert toks[s.at..s.at + |Linear(e)|][0] == toks[s.at];
    CastIsUnary(toks, env, s);
    if Level(e) == 7 {
      PrefixDone(e, toks, env, s);
    } else {
      PostfixContinues(e, toks, env, s.(replayed := true));
      PostfixEnds(toks, env, After(s, e), Lower(e, env));
    }
  }

  lemma CastIsUnary(toks: seq<Token>, env: Env, s: Cursor)
    requires !TokenAt(toks, s.at).TLeftParen?
    ensures ParseCast(toks, env, s) == ParseUnary(toks, env, s.(replayed := true))
    ensures TokenAt(toks, s.at).TIdent? || TokenAt(toks, s.at).TLit? ==>
              ParseCast(toks, env, s) == ParsePostfix(toks, env, s.(replayed := true))
  {
    hide ParsePostfix;
  }

  lemma PostfixEnds(toks: seq<Token>, env: Env, s: Cursor, acc: Tree)
    requires Single(acc)
    requires s.replayed && Stops(TokenAt(toks, s.at), 7)
    ensures PostfixLoop(toks, env, s, acc) == Parsed(s, acc)
  {
  }

  /** One prefix operator over an operand. */
  lemma UnaryTurn(toks: seq<Token>, env: Env, s: Cursor, p: Parsed)
    requires ParseCast(toks, env, Skip(s)) == p && p.t.Node? && p.s.used < NODE_MAX
    ensures var t := TokenAt(toks, s.at);
            PrefixKind(t).Some? ==> ParseUnary(toks, env, s)
                                    == Parsed(p.s.(used := p.s.used + 1), Over(PrefixKind(t).value, p.t, Nil))
    ensures TokenAt(toks, s.at).TSub? && p.s.used + 1 < NODE_MAX ==>
              ParseUnary(toks, env, s) == Parsed(p.s.(used := p.s.used + 2),
                Over(KBin(Sub), Node(Blank(KLit(LongLit)), Nil, Nil), p.t))
  {
    hide ParseCast;
  }

  lemma PrefixShape(e: Expr, env: Env)
    requires Level(e) == 7
    ensures var x, t := e.e, Linear(e)[0];
            Linear(e) == [t] + Linear(x) && (Fits(e, env) ==> Fits(x, env) && Level(x) >= 7)
            && (if e.Neg? then
                  t.TSub? && Nodes(e) == Nodes(x) + 2
                  && Lower(e, env) == Over(KBin(Sub), Node(Blank(KLit(LongLit)), Nil, Nil), Lower(x, env))
                else
                  PrefixKind(t).Some? && Nodes(e) == Nodes(x) + 1
                  && Lower(e, env) == Over(PrefixKind(t).value, Lower(x, env), Nil))
  {
  }

  lemma {:induction false} PrefixDone(e: Expr, toks: seq<Token>, env: Env, s: Cursor)
    requires Level(e) == 7 && Ready(toks, env, s, e)
    requires Stops(TokenAt(toks, s.at + |Linear(e)|), 7)
    ensures ParseUnary(toks, env, s.(replayed := true)) == Parsed(After(s, e), Lower(e, env))
    decreases e, 2
  {
    hide ParseCast, ParseUnary, Stops, Linear, Lower, Fits, Nodes, PrefixKind;
    PrefixShape(e, env);
    var x := e.e;
    var t := Linear(e)[0];
    ReadsSplit(toks, s.at, [t], Linear(x));
    ReadsOne(toks, s.at, t);
    CastDone(x, toks, env, Skip(s));
    UnaryTurn(toks, env, s.(replayed := true), Parsed(After(Skip(s), x), Lower(x, env)));
  }

  /** The postfix loop does not look at the replay flag it starts with. */
  lemma LoopIgnoresReplay(toks: seq<Token>, env: Env, s: Cursor, acc: Tree)
    requires Single(acc)
    ensures PostfixLoop(toks, env, s, acc) == PostfixLoop(toks, env, s.(replayed := true), acc)
  {
  }

  /** One ++ or -- after an operand. */
  lemma PostfixTurn(toks: seq<Token>, env: Env, s: Cursor, acc: Tree)
    requires Single(acc)
    requires acc.Node? && s.used < NODE_MAX && (TokenAt(toks, s.at).TInc? || TokenAt(toks, s.at).TDec?)
    ensures PostfixLoop(toks, env, s, acc)
            == PostfixLoop(toks, env, s.(at := s.at + 1, replayed := true, used := s.used + 1),
                           Over(KStep(if TokenAt(toks, s.at).TInc? then PostInc else PostDec), acc, Nil))
  {
    hide ParseParams;
    var k := KStep(if TokenAt(toks, s.at).TInc? then PostInc else PostDec);
    LoopIgnoresReplay(toks, env, Skip(s).(used := s.used + 1), Over(k, acc, Nil));
  }

  /** One call after an operand, with or without parameters. */
  lemma CallTurn(toks: seq<Token>, env: Env, s: Cursor, acc: Tree, p: Parsed)
    requires Single(acc)
    requires acc.Node? && TokenAt(toks, s.at).TLeftParen? && p.s.used < NODE_MAX
    requires if TokenAt(toks, s.at + 1).TRightParen? then p == Parsed(Skip(s), Nil)
             else p == ParseParams(toks, env, Skip(s).(replayed := true))
    requires TokenAt(toks, p.s.at).TRightParen?
    ensures PostfixLoop(toks, env, s, acc)
            == PostfixLoop(toks, env, p.s.(at := p.s.at + 1, replayed := true, used := p.s.used + 1),
                           Over(KFunc, acc, p.t))
  {
    hide ParseParams;
    LoopIgnoresReplay(toks, env, Skip(p.s).(used := p.s.used + 1), Over(KFunc, acc, p.t));
  }

  lemma LeafPostfix(toks: seq<Token>, env: Env, s: Cursor, e: Expr)
    requires (e.Lit? || e.Name?) && Ready(toks, env, s, e)
    ensures ParsePostfix(toks, env, s) == PostfixLoop(toks, env, After(s, e), Lower(e, env))
  {
    ReadsOne(toks, s.at, Linear(e)[0]);
    var p := ParsePrimary(toks, env, s);
    hide PostfixLoop;
    LoopIgnoresReplay(toks, env, p.s, p.t);
  }

  lemma {:induction false} PostfixContinues(e: Expr, toks: seq<Token>, env: Env, s: Cursor)
    requires Level(e) >= 8 && Ready(toks, env, s, e)
    ensures ParsePostfix(toks, env, s) == PostfixLoop(toks, env, After(s, e), Lower(e, env))
    decreases e, 1
  {
    hide ParsePostfix, PostfixLoop;
    match e
    case Lit(k, v) => LeafPostfix(toks, env, s, e);
    case Name(id) => LeafPostfix(toks, env, s, e);
    case Incr(op, x) =>
      var t := if op.PostInc? then TInc else TDec;
      ReadsSplit(toks, s.at, Linear(x), [t]);
      ReadsOne(toks, s.at + |Linear(x)|, t);
      PostfixContinues(x, toks, env, s);
      PostfixTurn(toks, env, After(s, x), Lower(x, env));
    case Call(f, args) => CallContinues(f, args, toks, env, s);
  }

  lemma CallShape(f: string, args: Args, env: Env)
    ensures var e, id := Call(f, args), Name(f);
            Linear(e) == [TIdent(f), TLeftParen] + LinearArgs(args) + [TRightParen]
            && Nodes(e) == 2 + NodesOf(args) && Linear(id) == [TIdent(f)] && Nodes(id) == 1
            && Lower(e, env) == Over(KFunc, Lower(id, env), LowerArgs(args, env))
            && (Fits(e, env) ==> FitsArgs(args, env) && Fits(id, env))
    ensures args.End? ==> LinearArgs(args) == [] && NodesOf(args) == 0 && LowerArgs(args, env) == Nil
    ensures args.More? ==>
              |LinearArgs(args)| > 0 && LinearArgs(args)[0] == Linear(args.head)[0]
              && (FitsArgs(args, env) ==> Fits(args.head, env))
  {
  }

  /** The tokens of a call, read one after the other. */
  lemma CallReads(f: string, args: Args, toks: seq<Token>, env: Env, s: Cursor)
    requires Ready(toks, env, s, Call(f, args))
    ensures Ready(toks, env, s, Name(f)) && TokenAt(toks, s.at + 1).TLeftParen?
    ensures FitsArgs(args, env) && Reads(toks, s.at + 2, LinearArgs(args)) && s.used + 2 + NodesOf(args) <= NODE_MAX
    ensures TokenAt(toks, s.at + 2 + |LinearArgs(args)|).TRightParen?
    ensures args.More? ==> !TokenAt(toks, s.at + 2).TRightParen?
  {
    hide Linear, LinearArgs, Nodes, NodesOf, Fits, FitsArgs;
    CallShape(f, args, env);
    var la := LinearArgs(args);
    ReadsSplit(toks, s.at, [TIdent(f), TLeftParen] + la, [TRightParen]);
    ReadsSplit(toks, s.at, [TIdent(f), TLeftParen], la);
    assert [TIdent(f), TLeftParen] == [TIdent(f)] + [TLeftParen];
    ReadsSplit(toks, s.at, [TIdent(f)], [TLeftParen]);
    ReadsOne(toks, s.at + 1, TLeftParen);
    ReadsOne(toks, s.at + 2 + |la|, TRightParen);
    if args.More? {
      FirstToken(args.head, env);
      assert toks[s.at + 2..s.at + 2 + |la|][0] == toks[s.at + 2];
    }
  }

  lemma {:induction false} CallContinues(f: string, args: Args, toks: seq<Token>, env: Env, s: Cursor)
    requires Ready(toks, env, s, Call(f, args))
    ensures ParsePostfix(toks, env, s)
            == PostfixLoop(toks, env, After(s, Call(f, args)), Lower(Call(f, args), env))
    decreases args, 50
  {
    hide ParseParams, ParsePostfix, PostfixLoop, Linear, LinearArgs, Nodes;
    hide NodesOf, Fits, FitsArgs, Lower, LowerArgs, Reads;
    var id := Name(f);
    CallShape(f, args, env);
    CallReads(f, args, toks, env, s);
    LeafPostfix(toks, env, s, id);
    var s1 := After(s, id);
    var s2 := Skip(s1).(replayed := true);
    if args.End? {
      CallTurn(toks, env, s1, Lower(id, env), Parsed(Skip(s1), Nil));
    } else {
      ParamsDone(args, toks, env, s2);
      CallTurn(toks, env, s1, Lower(id, env), ParseParams(toks, env, s2));
    }
  }

  lemma {:induction false} ParamsDone(args: Args, toks: seq<Token>, env: Env, s: Cursor)
    requires args.More? && FitsArgs(args, env) && Reads(toks, s.at, LinearArgs(args))
    requires s.used + NodesOf(args) <= NODE_MAX
    requires TokenAt(toks, s.at + |LinearArgs(args)|).TRightParen?
    ensures ParseParams(toks, env, s)
            == Parsed(s.(at := s.at + |LinearArgs(args)|, replayed := true, used := s.used + NodesOf(args)),
                      LowerArgs(args, env))
    decreases args, 45
  {
    hide ParseAssign;
    ReadsSplit(toks, s.at, Linear(args.head), LinearRest(args.tail));
    RestStops(args.tail, toks, s.at + |Linear(args.head)|);
    AssignDone(args.head, toks, env, s);
    ParamLoopDone(args.tail, toks, env, After(s, args.head));
  }

  lemma RestStops(args: Args, toks: seq<Token>, at: nat)
    requires Reads(toks, at, LinearRest(args)) && TokenAt(toks, at + |LinearRest(args)|).TRightParen?
    ensures Stops(TokenAt(toks, at), 0)
  {
    if args.More? {
      assert toks[at..at + |LinearRest(args)|][0] == toks[at];
    }
  }

  lemma RestShape(args: Args, env: Env)
    ensures args.End? ==> LinearRest(args) == [] && NodesOf(args) == 0 && LowerArgs(args, env) == Nil
    ensures args.More? ==>
              LinearRest(args) == [TComma] + Linear(args.head) + LinearRest(args.tail)
              && NodesOf(args) == Nodes(args.head) + NodesOf(args.tail)
              && LowerArgs(args, env) == WithSibling(Lower(args.head, env), LowerArgs(args.tail, env))
              && (FitsArgs(args, env) ==> Fits(args.head, env) && FitsArgs(args.tail, env))
  {
  }

  lemma ParamTurn(toks: seq<Token>, env: Env, s: Cursor)
    ensures !TokenAt(toks, s.at).TComma? ==> ParamLoop(toks, env, s) == Parsed(s.(replayed := true), Nil)
    ensures var p := ParseAssign(toks, env, Skip(s));
            TokenAt(toks, s.at).TComma? && p.t.Node? ==>
              var q := ParamLoop(toks, env, p.s);
              ParamLoop(toks, env, s) == Parsed(q.s, WithSibling(p.t, q.t))
  {
    hide ParseAssign;
  }

  lemma {:induction false} ParamLoopDone(args: Args, toks: seq<Token>, env: Env, s: Cursor)
    requires FitsArgs(args, env) && Reads(toks, s.at, LinearRest(args))
    requires s.used + NodesOf(args) <= NODE_MAX
    requires TokenAt(toks, s.at + |LinearRest(args)|).TRightParen?
    ensures ParamLoop(toks, env, s)
            == Parsed(s.(at := s.at + |LinearRest(args)|, replayed := true, used := s.used + NodesOf(args)),
                      LowerArgs(args, env))
    decreases args, 44
  {
    hide ParamLoop, ParseAssign, Linear, Fits, Nodes, Stops, LinearRest, NodesOf, FitsArgs, LowerArgs;
    RestShape(args, env);
    ParamTurn(toks, env, s);
    match args
    case End =>
    case More(e, t) =>
      ReadsSplit(toks, s.at, [TComma] + Linear(e), LinearRest(t));
      ReadsSplit(toks, s.at, [TComma], Linear(e));
      ReadsOne(toks, s.at, TComma);
      var s1 := Skip(s);
      RestStops(t, toks, s1.at + |Linear(e)|);
      AssignDone(e, toks, env, s1);
      ParamLoopDone(t, toks, env, After(s1, e));
  }

  /** Precedence parsing inverts linearisation: on the tokens of any tree that
      needs no parentheses, followed by a token that cannot extend it, the parser
      returns that tree and leaves exactly the following token replayed. */
  lemma {:induction false} AssignDone(e: Expr, toks: seq<Token>, env: Env, s: Cursor)
    requires Ready(toks, env, s, e)
    requires Stops(TokenAt(toks, s.at + |Linear(e)|), 0)
    ensures ParseAssign(toks, env, s) == Parsed(After(s, e), Lower(e, env))
    decreases e, 40
  {
    hide ParseBin, Linear, Lower, Fits, Nodes, Over;
    assert Stops(TokenAt(toks, s.at + |Linear(e)|), 1);
    hide OpAt;
    if Level(e) >= 1 {
      BinDone(1, e, toks, env, s);
    } else {
      var Assign(x, y) := e;
      AssignShape(x, y, env);
      ReadsSplit(toks, s.at, Linear(x) + [TAssign], Linear(y));
      ReadsSplit(toks, s.at, Linear(x), [TAssign]);
      ReadsOne(toks, s.at + |Linear(x)|, TAssign);
      BinDone(1, x, toks, env, s);
      AssignDone(y, toks, env, Skip(After(s, x)));
    }
  }

  lemma AssignShape(x: Expr, y: Expr, env: Env)
    ensures var e := Assign(x, y);
            Linear(e) == Linear(x) + [TAssign] + Linear(y) && Nodes(e) == Nodes(x) + Nodes(y) + 1
            && Lower(e, env) == Over(KAssign, Lower(x, env), Lower(y, env))
            && (Fits(e, env) ==> Fits(x, env) && Fits(y, env) && Level(x) >= 1)
  {
  }

  function LinearAll(stmts: seq<Expr>): seq<Token> {
    if |stmts| == 0 then [] else Linear(stmts[0]) + [TSemicolon] + LinearAll(stmts[1..])
  }

  function NodesOfAll(stmts: seq<Expr>): nat {
    if |stmts| == 0 then 0 else Nodes(stmts[0]) + NodesOfAll(stmts[1..])
  }

  ghost predicate AllFit(stmts: seq<Expr>, env: Env) {
    forall i :: 0 <= i < |stmts| ==> Fits(stmts[i], env)
  }

  lemma StatementDone(e: Expr, toks: seq<Token>, env: Env, s: Cursor)
    requires Ready(toks, env, s, e) && TokenAt(toks, s.at + |Linear(e)|).TSemicolon?
    ensures ParseStatement(toks, env, s) == Parsed(Skip(After(s, e)), Lower(e, env))
    ensures !TokenAt(toks, s.at).TEof? && !TokenAt(toks, s.at).TBad?
  {
    hide ParseAssign, Linear, Fits, Nodes;
    FirstToken(e, env);
    assert toks[s.at..s.at + |Linear(e)|][0] == toks[s.at];
    AssignDone(e, toks, env, s.(replayed := true));
  }

  lemma AllShape(stmts: seq<Expr>, env: Env)
    ensures |stmts| == 0 ==> LinearAll(stmts) == [] && NodesOfAll(stmts) == 0 && LowerAll(stmts, env) == Nil
    ensures |stmts| > 0 ==>
              LinearAll(stmts) == Linear(stmts[0]) + [TSemicolon] + LinearAll(stmts[1..])
              && NodesOfAll(stmts) == Nodes(stmts[0]) + NodesOfAll(stmts[1..])
              && LowerAll(stmts, env) == WithSibling(Lower(stmts[0], env), LowerAll(stmts[1..], env))
  {
  }

  lemma ProgramTurn(toks: seq<Token>, env: Env, s: Cursor, started: bool)
    requires !TokenAt(toks, s.at).TEof? && !TokenAt(toks, s.at).TBad?
    requires ParseStatement(toks, env, s.(replayed := true)).t.Node?
    ensures var p := ParseStatement(toks, env, s.(replayed := true));
            var q := ParseProgram(toks, env, p.s, true);
            ParseProgram(toks, env, s, started) == Parsed(q.s, WithSibling(p.t, q.t))
  {
    hide ParseStatement;
  }

  lemma ProgramEnds(toks: seq<Token>, env: Env, s: Cursor, started: bool)
    requires s.at == |toks|
    ensures ParseProgram(toks, env, s, started) == Parsed(Skip(s), Nil)
  {
  }

  /** A whole input line parses back to its statements, without an error. */
  lemma {:induction false} ProgramDone(stmts: seq<Expr>, toks: seq<Token>, env: Env, s: Cursor, started: bool)
    requires AllFit(stmts, env) && Reads(toks, s.at, LinearAll(stmts)) && s.at + |LinearAll(stmts)| == |toks|
    requires s.used + NodesOfAll(stmts) <= NODE_MAX
    ensures var r := ParseProgram(toks, env, s, started);
            r.t == LowerAll(stmts, env) && r.s.err == s.err && r.s.used == s.used + NodesOfAll(stmts)
    decreases |stmts|
  {
    hide ParseProgram, ParseStatement, Linear, Fits, Nodes, Lower, LinearAll, NodesOfAll, LowerAll;
    AllShape(stmts, env);
    if |stmts| == 0 {
      ProgramEnds(toks, env, s, started);
    } else {
      var e, rest := stmts[0], stmts[1..];
      var ts := LinearAll(rest);
      ReadsSplit(toks, s.at, Linear(e) + [TSemicolon], ts);
      ReadsSplit(toks, s.at, Linear(e), [TSemicolon]);
      ReadsOne(toks, s.at + |Linear(e)|, TSemicolon);
      StatementDone(e, toks, env, s.(replayed := true));
      ProgramTurn(toks, env, s, started);
      ProgramDone(rest, toks, env, Skip(After(s, e)), true);
    }
  }
}
