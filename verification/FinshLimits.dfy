/** What else the parser of finsh_parser.c turns down: names without a symbol, and lines that
    need more nodes than there are. */
module FinshLimits {
  import opened Basics
  import opened FinshOperators
  import opened FinshMachine
  import opened FinshSyntax
  import opened FinshParser
  import opened FinshRejects

  /** Every name has a symbol, and the nodes still free are enough. */
  predicate Fine(e: Expr, env: Env, used: nat) {
    Fits(e, env) && used + Nodes(e) <= FinshParser.NODE_MAX
  }

  predicate FineArgs(args: Args, env: Env, used: nat) {
    FitsArgs(args, env) && used + NodesOf(args) <= FinshParser.NODE_MAX
  }

  /** The tokens of an expression that needs no parentheses, whatever names it holds: it
      fits where all of them are known. */
  ghost predicate Written(toks: seq<Token>, at: nat, e: Expr, all: Env) {
    Fits(e, all) && Reads(toks, at, Linear(e))
  }

  // ------------------------------------------------------------ binary levels

  lemma {:induction false} BinContinuesFails(level: nat, e: Expr, toks: seq<Token>, all: Env, env: Env, s: Cursor)
    requires 1 <= level <= 6 && Level(e) >= level && Written(toks, s.at, e, all) && !Fine(e, env, s.used)
    requires Stops(TokenAt(toks, s.at + |Linear(e)|), level + 1)
    ensures ParseBin(level, toks, env, s).s.err != ERR_OK
    decreases e, 30 - 2 * level
  {
    hide BinLoop, ParseCast, Linear, Fits, Nodes, Stops, Placed;
    if Level(e) > level {
      BinDoneFails(level + 1, e, toks, all, env, s);
      var p := ParseBin(level + 1, toks, env, s);
      BinLoopSound(level, toks, env, p.s, p.t);
    } else {
      BinOperatorFails(e.bop, e.l, e.r, toks, all, env, s);
    }
  }

  lemma {:induction false} BinOperatorFails(op: BinOp, x: Expr, y: Expr, toks: seq<Token>, all: Env, env: Env,
                                            s: Cursor)
    requires Written(toks, s.at, Bin(op, x, y), all) && !Fine(Bin(op, x, y), env, s.used)
    requires Stops(TokenAt(toks, s.at + |Linear(Bin(op, x, y))|), LevelOf(op) + 1)
    ensures ParseBin(LevelOf(op), toks, env, s).s.err != ERR_OK
    decreases Bin(op, x, y), 0
  {
    hide ParseBin, BinLoop, Stops, OpAt, Linear, Lower, Nodes, LevelOf;
    BinFits(op, x, y, all, env);
    BinShape(op, x, y, env);
    hide Fits;
    var level, o := LevelOf(op), [OpToken(op)];
    ReadsSplit(toks, s.at, Linear(x) + o, Linear(y));
    ReadsSplit(toks, s.at, Linear(x), o);
    var s1 := After(s, x);
    ReadsOne(toks, s1.at, OpToken(op));
    OpStops(op);
    OpLevels(op, level);
    if !Fine(x, env, s.used) {
      BinContinuesFails(level, x, toks, all, env, s);
    } else {
      BinContinues(level, x, toks, env, s);
      if !Fine(y, env, s1.used) {
        BinDoneFails(level + 1, y, toks, all, env, Skip(s1));
      } else {
        BinDone(level + 1, y, toks, env, Skip(s1));
      }
      LoopFails(level, toks, env, s1, Lower(x, env));
    }
  }

  lemma BinFits(op: BinOp, x: Expr, y: Expr, all: Env, env: Env)
    requires Fits(Bin(op, x, y), all)
    ensures Fits(x, all) && Fits(y, all) && Level(x) >= LevelOf(op) && Level(y) > LevelOf(op)
    ensures Fits(Bin(op, x, y), env) <==> Fits(x, env) && Fits(y, env)
  {
  }

  /** A turn of a binary loop whose operand fails, or for which no node is left. */
  lemma LoopFails(level: nat, toks: seq<Token>, env: Env, s: Cursor, acc: Tree)
    requires 1 <= level < LEVEL_CAST && Single(acc) && OpAt(level, TokenAt(toks, s.at)).Some?
    requires var p := ParseBin(level + 1, toks, env, Skip(s));
             p.s.err != ERR_OK || (p.t.Node? && p.s.used >= FinshParser.NODE_MAX)
    ensures BinLoop(level, toks, env, s, acc).s.err != ERR_OK
  {
    hide ParseBin, OpAt, Placed;
    var op, p := OpAt(level, TokenAt(toks, s.at)).value, ParseBin(level + 1, toks, env, Skip(s));
    if p.t.Nil? {
      BinLoopSound(level, toks, env, Fail(p.s, ERR_EXPECT_OPERATOR), acc);
    } else {
      var q := MakeSys(p.s, KBin(op), acc, p.t);
      BinLoopSound(level, toks, env, q.s, q.t);
    }
  }

  lemma {:induction false} BinDoneFails(level: nat, e: Expr, toks: seq<Token>, all: Env, env: Env, s: Cursor)
    requires 1 <= level <= 7 && Level(e) >= level && Written(toks, s.at, e, all) && !Fine(e, env, s.used)
    requires Stops(TokenAt(toks, s.at + |Linear(e)|), level)
    ensures ParseBin(level, toks, env, s).s.err != ERR_OK
    decreases e, 31 - 2 * level
  {
    hide ParseCast, Linear, Fits, Nodes;
    if level == 7 {
      CastFailsOn(e, toks, all, env, s);
    } else {
      BinContinuesFails(level, e, toks, all, env, s);
    }
  }

  // ----------------------------------------------------- prefixes and postfixes

  lemma {:induction false} CastFailsOn(e: Expr, toks: seq<Token>, all: Env, env: Env, s: Cursor)
    requires Level(e) >= 7 && Written(toks, s.at, e, all) && !Fine(e, env, s.used)
    requires Stops(TokenAt(toks, s.at + |Linear(e)|), 7)
    ensures ParseCast(toks, env, s).s.err != ERR_OK
    decreases e, 3
  {
    hide ParseUnary, ParsePostfix, PostfixLoop, Linear, Fits, Nodes;
    FirstToken(e, all);
    assert toks[s.at..s.at + |Linear(e)|][0] == toks[s.at];
    CastIsUnary(toks, env, s);
    if Level(e) == 7 {
      PrefixFails(e, toks, all, env, s);
    } else {
      PostfixFails(e, toks, all, env, s.(replayed := true));
    }
  }

  lemma {:induction false} PrefixFails(e: Expr, toks: seq<Token>, all: Env, env: Env, s: Cursor)
    requires Level(e) == 7 && Written(toks, s.at, e, all) && !Fine(e, env, s.used)
    requires Stops(TokenAt(toks, s.at + |Linear(e)|), 7)
    ensures ParseUnary(toks, env, s.(replayed := true)).s.err != ERR_OK
    decreases e, 2
  {
    hide ParseCast, ParseUnary, Stops, Linear, Lower, Nodes, PrefixKind;
    PrefixShape(e, all);
    PrefixShape(e, env);
    assert Fits(e, env) <==> Fits(e.e, env) by { PrefixFits(e, all, env); }
    hide Fits;
    var x, t := e.e, Linear(e)[0];
    ReadsSplit(toks, s.at, [t], Linear(x));
    ReadsOne(toks, s.at, t);
    if !Fine(x, env, s.used) {
      CastFailsOn(x, toks, all, env, Skip(s));
    } else {
      CastDone(x, toks, env, Skip(s));
    }
    UnaryFails(toks, env, s.(replayed := true));
  }

  lemma PrefixFits(e: Expr, all: Env, env: Env)
    requires Level(e) == 7 && Fits(e, all)
    ensures Fits(e, env) <==> Fits(e.e, env)
  {
  }

  /** A prefix operator whose operand fails, or for which too few nodes are left. */
  lemma UnaryFails(toks: seq<Token>, env: Env, s: Cursor)
    requires var t, p := TokenAt(toks, s.at), ParseCast(toks, env, Skip(s));
             (t.TSub? || PrefixKind(t).Some?)
             && (p.s.err != ERR_OK || p.s.used + (if t.TSub? then 2 else 1) > FinshParser.NODE_MAX)
    ensures ParseUnary(toks, env, s).s.err != ERR_OK
  {
    hide ParseCast;
  }

  lemma {:induction false} PostfixFails(e: Expr, toks: seq<Token>, all: Env, env: Env, s: Cursor)
    requires Level(e) >= 8 && Written(toks, s.at, e, all) && !Fine(e, env, s.used)
    ensures ParsePostfix(toks, env, s).s.err != ERR_OK
    decreases e, 1
  {
    hide ParsePostfix, PostfixLoop;
    match e
    case Lit(k, v) => LeafFails(toks, env, s, e);
    case Name(id) => LeafFails(toks, env, s, e);
    case Incr(op, x) =>
      var t := if op.PostInc? then TInc else TDec;
      ReadsSplit(toks, s.at, Linear(x), [t]);
      ReadsOne(toks, s.at + |Linear(x)|, t);
      if !Fine(x, env, s.used) {
        PostfixFails(x, toks, all, env, s);
      } else {
        PostfixContinues(x, toks, env, s);
        StepFails(toks, env, After(s, x), Lower(x, env));
      }
    case Call(f, args) => CallFails(f, args, toks, all, env, s);
  }

  lemma LeafFails(toks: seq<Token>, env: Env, s: Cursor, e: Expr)
    requires (e.Lit? || e.Name?) && Reads(toks, s.at, Linear(e)) && !Fine(e, env, s.used)
    ensures ParsePostfix(toks, env, s).s.err != ERR_OK
  {
    ReadsOne(toks, s.at, Linear(e)[0]);
    hide PostfixLoop;
    var p := ParsePrimary(toks, env, s);
    assert p.s.err != ERR_OK;
    PostfixSticky(toks, env, p.s, p.t);
  }

  /** ++ or -- when no node is left. */
  lemma StepFails(toks: seq<Token>, env: Env, s: Cursor, acc: Tree)
    requires Single(acc) && s.used >= FinshParser.NODE_MAX && (TokenAt(toks, s.at).TInc? || TokenAt(toks, s.at).TDec?)
    ensures PostfixLoop(toks, env, s, acc).s.err != ERR_OK
  {
    var q := MakeSys(Skip(s), KStep(if TokenAt(toks, s.at).TInc? then PostInc else PostDec), acc, Nil);
    PostfixSticky(toks, env, q.s, q.t);
  }

  // ------------------------------------------------------------------- calls

  lemma {:induction false} CallFails(f: string, args: Args, toks: seq<Token>, all: Env, env: Env, s: Cursor)
    requires Written(toks, s.at, Call(f, args), all) && !Fine(Call(f, args), env, s.used)
    ensures ParsePostfix(toks, env, s).s.err != ERR_OK
    decreases args, 50
  {
    hide ParseParams, ParsePostfix, PostfixLoop, Linear, LinearArgs, Nodes, NodesOf, Lower, LowerArgs;
    CallShape(f, args, all);
    CallShape(f, args, env);
    CallFits(f, args, all, env);
    hide Fits, FitsArgs;
    var id := Name(f);
    CallTokens(f, args, toks, all, s);
    hide Reads;
    if !Fine(id, env, s.used) {
      LeafFails(toks, env, s, id);
    } else {
      LeafPostfix(toks, env, s, id);
      var s1 := After(s, id);
      ArgsFail(args, toks, all, env, s1);
      var p := CallArgs(toks, env, s1);
      var q := MakeSys(p.s, KFunc, Lower(id, env), p.t);
      CallLoop(toks, env, s1, Lower(id, env));
      PostfixSticky(toks, env, q.s, q.t);
    }
  }

  lemma CallFits(f: string, args: Args, all: Env, env: Env)
    ensures Fits(Call(f, args), env) <==> Fits(Name(f), env) && FitsArgs(args, env)
    ensures Fits(Call(f, args), all) ==> FitsArgs(args, all)
  {
  }

  /** The tokens of a call, read one after the other. */
  lemma CallTokens(f: string, args: Args, toks: seq<Token>, all: Env, s: Cursor)
    requires Written(toks, s.at, Call(f, args), all)
    ensures Reads(toks, s.at, Linear(Name(f))) && TokenAt(toks, s.at + 1).TLeftParen?
    ensures Reads(toks, s.at + 2, LinearArgs(args)) && TokenAt(toks, s.at + 2 + |LinearArgs(args)|).TRightParen?
    ensures args.More? ==> !TokenAt(toks, s.at + 2).TRightParen?
  {
    hide Linear, LinearArgs, Nodes, NodesOf, Fits, FitsArgs;
    CallShape(f, args, all);
    var la := LinearArgs(args);
    ReadsSplit(toks, s.at, [TIdent(f), TLeftParen] + la, [TRightParen]);
    ReadsSplit(toks, s.at, [TIdent(f), TLeftParen], la);
    assert [TIdent(f), TLeftParen] == [TIdent(f)] + [TLeftParen];
    ReadsSplit(toks, s.at, [TIdent(f)], [TLeftParen]);
    ReadsOne(toks, s.at + 1, TLeftParen);
    ReadsOne(toks, s.at + 2 + |la|, TRightParen);
    if args.More? {
      FirstToken(args.head, all);
      assert toks[s.at + 2..s.at + 2 + |la|][0] == toks[s.at + 2];
    }
  }

  /** Either the arguments fail or no node is left for the call. */
  lemma {:induction false} ArgsFail(args: Args, toks: seq<Token>, all: Env, env: Env, s: Cursor)
    requires FitsArgs(args, all) && TokenAt(toks, s.at).TLeftParen? && Reads(toks, s.at + 1, LinearArgs(args))
    requires TokenAt(toks, s.at + 1 + |LinearArgs(args)|).TRightParen?
    requires args.More? ==> !TokenAt(toks, s.at + 1).TRightParen?
    requires !FitsArgs(args, env) || s.used + 1 + NodesOf(args) > FinshParser.NODE_MAX
    ensures var p := CallArgs(toks, env, s); p.s.err != ERR_OK || p.s.used >= FinshParser.NODE_MAX
    decreases args, 47
  {
    hide ParseParams, LinearRest, Linear, Fits, Nodes;
    if args.More? {
      var s1 := Skip(s).(replayed := true);
      if !FineArgs(args, env, s.used) {
        ParamsFail(args, toks, all, env, s1);
      } else {
        ParamsDone(args, toks, env, s1);
      }
    }
  }

  lemma {:induction false} ParamsFail(args: Args, toks: seq<Token>, all: Env, env: Env, s: Cursor)
    requires args.More? && FitsArgs(args, all) && Reads(toks, s.at, LinearArgs(args))
    requires TokenAt(toks, s.at + |LinearArgs(args)|).TRightParen? && !FineArgs(args, env, s.used)
    ensures ParseParams(toks, env, s).s.err != ERR_OK
    decreases args, 45
  {
    hide ParseAssign, ParamLoop, Linear, Fits, Nodes, Stops, Placed;
    var e, t := args.head, args.tail;
    ReadsSplit(toks, s.at, Linear(e), LinearRest(t));
    RestStops(t, toks, s.at + |Linear(e)|);
    if !Fine(e, env, s.used) {
      AssignFails(e, toks, all, env, s);
      ParamLoopClean(toks, env, ParseAssign(toks, env, s).s);
    } else {
      AssignDone(e, toks, env, s);
      ParamLoopFails(t, toks, all, env, After(s, e));
    }
  }

  lemma {:induction false} ParamLoopFails(args: Args, toks: seq<Token>, all: Env, env: Env, s: Cursor)
    requires FitsArgs(args, all) && Reads(toks, s.at, LinearRest(args)) && !FineArgs(args, env, s.used)
    requires TokenAt(toks, s.at + |LinearRest(args)|).TRightParen? && s.used <= FinshParser.NODE_MAX
    ensures ParamLoop(toks, env, s).s.err != ERR_OK
    decreases args, 44
  {
    hide ParseAssign, ParamLoop, Linear, Fits, Nodes, Stops, LinearRest, LowerArgs, Lower;
    RestShape(args, all);
    RestShape(args, env);
    if !FitsArgs(args, env) { RestFits(args, env); }
    hide NodesOf, FitsArgs;
    if args.More? {
      var e, t := args.head, args.tail;
      ReadsSplit(toks, s.at, [TComma] + Linear(e), LinearRest(t));
      ReadsSplit(toks, s.at, [TComma], Linear(e));
      ReadsOne(toks, s.at, TComma);
      var s1 := Skip(s);
      RestStops(t, toks, s1.at + |Linear(e)|);
      if !Fine(e, env, s.used) {
        AssignFails(e, toks, all, env, s1);
        CommaFails(toks, env, s);
      } else {
        AssignDone(e, toks, env, s1);
        ParamLoopFails(t, toks, all, env, After(s1, e));
        ParamTurn(toks, env, s);
      }
    }
  }

  lemma RestFits(args: Args, env: Env)
    requires !FitsArgs(args, env)
    ensures args.More? && (!Fits(args.head, env) || !FitsArgs(args.tail, env))
  {
  }

  lemma CommaFails(toks: seq<Token>, env: Env, s: Cursor)
    requires TokenAt(toks, s.at).TComma? && ParseAssign(toks, env, Skip(s)).s.err != ERR_OK
    ensures ParamLoop(toks, env, s).s.err != ERR_OK
  {
    hide ParseAssign, Placed;
    var p := ParseAssign(toks, env, Skip(s));
    ParamLoopClean(toks, env, if p.t.Nil? then Fail(p.s, ERR_EXPECT_OPERATOR) else p.s);
  }

  // -------------------------------------------------- expressions and the line

  lemma {:induction false} AssignFails(e: Expr, toks: seq<Token>, all: Env, env: Env, s: Cursor)
    requires Written(toks, s.at, e, all) && !Fine(e, env, s.used)
    requires Stops(TokenAt(toks, s.at + |Linear(e)|), 0)
    ensures ParseAssign(toks, env, s).s.err != ERR_OK
    decreases e, 40
  {
    hide ParseBin, ParseAssign, Linear, Nodes, Fits, OpAt;
    if Level(e) >= 1 {
      BinDoneFails(1, e, toks, all, env, s);
      AssignSticky(toks, env, s);
    } else {
      TargetFails(e.l, e.r, toks, all, env, s);
    }
  }

  lemma {:induction false} TargetFails(x: Expr, y: Expr, toks: seq<Token>, all: Env, env: Env, s: Cursor)
    requires Written(toks, s.at, Assign(x, y), all) && !Fine(Assign(x, y), env, s.used)
    requires Stops(TokenAt(toks, s.at + |Linear(Assign(x, y))|), 0)
    ensures ParseAssign(toks, env, s).s.err != ERR_OK
    decreases Assign(x, y), 0
  {
    hide ParseBin, ParseAssign, Linear, Lower, Nodes, OpAt, Stops;
    AssignShape(x, y, all);
    AssignFits(x, y, all, env);
    hide Fits;
    ReadsSplit(toks, s.at, Linear(x) + [TAssign], Linear(y));
    ReadsSplit(toks, s.at, Linear(x), [TAssign]);
    var s1 := After(s, x);
    ReadsOne(toks, s1.at, TAssign);
    assert Stops(TAssign, 1) by { AssignStops(); }
    if !Fine(x, env, s.used) {
      BinDoneFails(1, x, toks, all, env, s);
      AssignSticky(toks, env, s);
    } else {
      BinDone(1, x, toks, env, s);
      if !Fine(y, env, s1.used) {
        AssignFails(y, toks, all, env, Skip(s1));
      } else {
        AssignDone(y, toks, env, Skip(s1));
      }
      ValueFails(toks, env, s);
    }
  }

  lemma AssignFits(x: Expr, y: Expr, all: Env, env: Env)
    requires Fits(Assign(x, y), all)
    ensures Fits(x, all) && Fits(y, all) && Level(x) >= 1
    ensures Fits(Assign(x, y), env) <==> Fits(x, env) && Fits(y, env)
  {
  }

  lemma AssignStops()
    ensures Stops(TAssign, 1)
  {
  }

  /** An assignment whose value fails, or for which no node is left. */
  lemma ValueFails(toks: seq<Token>, env: Env, s: Cursor)
    requires var p := ParseBin(1, toks, env, s);
             TokenAt(toks, p.s.at).TAssign?
             && var q := ParseAssign(toks, env, Skip(p.s));
                q.s.err != ERR_OK || q.s.used >= FinshParser.NODE_MAX
    ensures ParseAssign(toks, env, s).s.err != ERR_OK
  {
    hide ParseBin;
  }

  lemma AssignSticky(toks: seq<Token>, env: Env, s: Cursor)
    requires ParseBin(1, toks, env, s).s.err != ERR_OK
    ensures ParseAssign(toks, env, s).s.err != ERR_OK
  {
    hide ParseBin, Placed;
    var p := ParseBin(1, toks, env, s);
    if TokenAt(toks, p.s.at).TAssign? { AssignSound(toks, env, Skip(p.s)); }
  }

  lemma StatementFails(e: Expr, toks: seq<Token>, all: Env, env: Env, s: Cursor)
    requires Written(toks, s.at, e, all) && !Fine(e, env, s.used)
    requires TokenAt(toks, s.at + |Linear(e)|).TSemicolon?
    ensures ParseStatement(toks, env, s).s.err != ERR_OK
    ensures !TokenAt(toks, s.at).TEof? && !TokenAt(toks, s.at).TBad?
  {
    hide ParseAssign, Linear, Fits, Nodes;
    FirstToken(e, all);
    assert toks[s.at..s.at + |Linear(e)|][0] == toks[s.at];
    AssignFails(e, toks, all, env, s.(replayed := true));
  }

  lemma {:induction false} ProgramFails(stmts: seq<Expr>, toks: seq<Token>, all: Env, env: Env, s: Cursor,
                                        started: bool)
    requires AllFit(stmts, all) && Reads(toks, s.at, LinearAll(stmts)) && s.at + |LinearAll(stmts)| == |toks|
    requires !AllFit(stmts, env) || s.used + NodesOfAll(stmts) > FinshParser.NODE_MAX
    requires s.used <= FinshParser.NODE_MAX
    ensures ParseProgram(toks, env, s, started).s.err != ERR_OK
    decreases |stmts|
  {
    hide ParseProgram, ParseStatement, Linear, Fits, Nodes, Lower, LinearAll, NodesOfAll, LowerAll;
    AllShape(stmts, env);
    if |stmts| > 0 {
      var e, rest := stmts[0], stmts[1..];
      var ts := LinearAll(rest);
      ReadsSplit(toks, s.at, Linear(e) + [TSemicolon], ts);
      ReadsSplit(toks, s.at, Linear(e), [TSemicolon]);
      ReadsOne(toks, s.at + |Linear(e)|, TSemicolon);
      var s1 := s.(replayed := true);
      if !Fine(e, env, s.used) {
        StatementFails(e, toks, all, env, s1);
        TurnFails(toks, env, s, started);
      } else {
        StatementDone(e, toks, env, s1);
        ProgramTurn(toks, env, s, started);
        ProgramFails(rest, toks, all, env, Skip(After(s, e)), true);
      }
    }
  }

  lemma TurnFails(toks: seq<Token>, env: Env, s: Cursor, started: bool)
    requires !TokenAt(toks, s.at).TEof? && !TokenAt(toks, s.at).TBad?
    requires ParseStatement(toks, env, s.(replayed := true)).s.err != ERR_OK
    ensures ParseProgram(toks, env, s, started).s.err != ERR_OK
  {
    hide ParseStatement;
    var p := ParseStatement(toks, env, s.(replayed := true));
    if p.t.Node? {
      ProgramSticky(toks, env, p.s, true);
    } else {
      ProgramSticky(toks, env, if started && !TokenAt(toks, s.at).TIdent? then Skip(p.s) else p.s, started);
    }
  }

  /** A line of statements that need no parentheses is read without an error if, and only
      if, every name in it has a symbol and sixteen nodes are enough for it. */
  lemma LineReadIff(stmts: seq<Expr>, all: Env, env: Env)
    requires AllFit(stmts, all)
    ensures ParseProgram(LinearAll(stmts), env, START, false).s.err == ERR_OK
            <==> AllFit(stmts, env) && NodesOfAll(stmts) <= FinshParser.NODE_MAX
  {
    hide ParseProgram, LinearAll, NodesOfAll, AllFit;
    var toks := LinearAll(stmts);
    assert toks[0..|toks|] == toks;
    if AllFit(stmts, env) && NodesOfAll(stmts) <= FinshParser.NODE_MAX {
      ProgramDone(stmts, toks, env, START, false);
    } else {
      ProgramFails(stmts, toks, all, env, START, false);
    }
  }
}
