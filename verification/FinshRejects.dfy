/** What the parser of finsh_parser.c turns down: parentheses around an expression. */
module FinshRejects {
  import opened Basics
  import opened FinshOperators
  import opened FinshMachine
  import opened FinshSyntax
  import opened FinshParser

  /** The token can end an operand. */
  predicate Ends(t: Token) {
    t.TIdent? || t.TLit? || t.TRightParen? || t.TInc? || t.TDec?
  }

  /** Every left parenthesis from one place up to another follows an operand. */
  ghost predicate Placed(toks: seq<Token>, from: nat, to: nat) {
    forall i: nat :: from <= i < to && TokenAt(toks, i).TLeftParen? ==> i > 0 && Ends(TokenAt(toks, i - 1))
  }

  /** Nothing wrong was read on the way from one cursor to the other. */
  ghost predicate Clean(toks: seq<Token>, s: Cursor, r: Cursor) {
    r.err == ERR_OK ==> s.err == ERR_OK && Placed(toks, s.at, r.at)
  }

  /** The same, with a tree in hand. */
  ghost predicate Sound(toks: seq<Token>, s: Cursor, r: Parsed) {
    Clean(toks, s, r.s) && (r.s.err == ERR_OK ==> r.t.Node?)
  }

  lemma CleanJoin(toks: seq<Token>, s: Cursor, m: Cursor, r: Cursor)
    requires Clean(toks, s, m) && Clean(toks, m, r)
    ensures Clean(toks, s, r)
  {
  }

  lemma CleanSys(toks: seq<Token>, s: Cursor, k: Kind, n1: Tree, n2: Tree)
    ensures var q := MakeSys(s, k, n1, n2);
            Clean(toks, s, q.s) && q.s.at == s.at && (q.s.err == ERR_OK ==> q.t.Node?) && Single(q.t)
  {
  }

  // ------------------------------------------------------- expression by level

  lemma {:induction false} AssignSound(toks: seq<Token>, env: Env, s: Cursor)
    ensures Sound(toks, s, ParseAssign(toks, env, s))
    decreases Left(toks, s), 30
  {
    hide ParseBin, MakeSys, Clean;
    var p := ParseBin(1, toks, env, s);
    BinSound(1, toks, env, s);
    if TokenAt(toks, p.s.at).TAssign? {
      var q := ParseAssign(toks, env, Skip(p.s));
      AssignSound(toks, env, Skip(p.s));
      CleanSys(toks, q.s, KAssign, p.t, q.t);
      CleanJoin(toks, s, p.s, Skip(p.s));
      CleanJoin(toks, s, Skip(p.s), q.s);
      CleanJoin(toks, s, q.s, MakeSys(q.s, KAssign, p.t, q.t).s);
    }
  }

  lemma {:induction false} BinSound(level: nat, toks: seq<Token>, env: Env, s: Cursor)
    requires 1 <= level <= LEVEL_CAST
    ensures Sound(toks, s, ParseBin(level, toks, env, s))
    decreases Left(toks, s), 29 - level
  {
    hide ParseCast, BinLoop, Placed;
    if level == LEVEL_CAST {
      CastSound(toks, env, s);
    } else {
      var p := ParseBin(level + 1, toks, env, s);
      BinSound(level + 1, toks, env, s);
      BinLoopSound(level, toks, env, p.s, p.t);
      CleanJoin(toks, s, p.s, BinLoop(level, toks, env, p.s, p.t).s);
    }
  }

  lemma {:induction false} BinLoopSound(level: nat, toks: seq<Token>, env: Env, s: Cursor, acc: Tree)
    requires 1 <= level < LEVEL_CAST && Single(acc)
    ensures var r := BinLoop(level, toks, env, s, acc);
            Clean(toks, s, r.s) && (r.s.err == ERR_OK && acc.Node? ==> r.t.Node?)
    decreases Left(toks, s), 5
  {
    hide ParseBin, MakeSys, OpAt;
    var op := OpAt(level, TokenAt(toks, s.at));
    if op.Some? {
      OpIsNoParen(level, TokenAt(toks, s.at));
      var p := ParseBin(level + 1, toks, env, Skip(s));
      BinSound(level + 1, toks, env, Skip(s));
      CleanJoin(toks, s, Skip(s), p.s);
      if p.t.Nil? {
        BinLoopSound(level, toks, env, Fail(p.s, ERR_EXPECT_OPERATOR), acc);
      } else {
        var q := MakeSys(p.s, KBin(op.value), acc, p.t);
        CleanSys(toks, p.s, KBin(op.value), acc, p.t);
        CleanJoin(toks, s, p.s, q.s);
        BinLoopSound(level, toks, env, q.s, q.t);
        CleanJoin(toks, s, q.s, BinLoop(level, toks, env, q.s, q.t).s);
      }
    }
  }

  lemma OpIsNoParen(level: nat, t: Token)
    requires OpAt(level, t).Some?
    ensures !t.TLeftParen? && !t.TEof?
  {
  }

  lemma {:induction false} CastSound(toks: seq<Token>, env: Env, s: Cursor)
    ensures Sound(toks, s, ParseCast(toks, env, s))
    decreases Left(toks, s), 12
  {
    if TokenAt(toks, s.at).TLeftParen? {
      CastFails(toks, env, s);
    } else {
      UnarySound(toks, env, s.(replayed := true));
    }
  }

  /** A left parenthesis where an operand must start always ends in an error: it is
      taken for the start of a cast, and no type follows. */
  lemma {:induction false} CastFails(toks: seq<Token>, env: Env, s: Cursor)
    requires TokenAt(toks, s.at).TLeftParen?
    ensures ParseCast(toks, env, s).s.err != ERR_OK
    decreases Left(toks, s), 11
  {
    hide ParseUnary;
    var s1 := Fail(Skip(s).(replayed := true), ERR_UNKNOWN_TYPE);
    var m := Match(toks, s1, TRightParen);
    assert m.err != ERR_OK;
    CastSound(toks, env, m);
    var p := ParseCast(toks, env, m);
    assert p.s.err != ERR_OK;
    if p.t.Nil? { UnarySound(toks, env, p.s); }
  }

  lemma {:induction false} UnarySound(toks: seq<Token>, env: Env, s: Cursor)
    requires s.err == ERR_OK ==> !TokenAt(toks, s.at).TLeftParen?
    ensures Sound(toks, s, ParseUnary(toks, env, s))
    decreases Left(toks, s), 11
  {
    hide ParseCast, ParsePostfix, MakeSys, NewLit;
    var t := TokenAt(toks, s.at);
    if t.TAdd? || t.TSub? || PrefixKind(t).Some? {
      var p := ParseCast(toks, env, Skip(s));
      CastSound(toks, env, Skip(s));
      CleanJoin(toks, s, Skip(s), p.s);
      if t.TSub? {
        NegSound(toks, s, p);
      } else if !t.TAdd? {
        CleanSys(toks, p.s, PrefixKind(t).value, p.t, Nil);
        CleanJoin(toks, s, p.s, MakeSys(p.s, PrefixKind(t).value, p.t, Nil).s);
      }
    } else {
      PostfixSound(toks, env, s.(replayed := true));
    }
  }

  lemma NegSound(toks: seq<Token>, s: Cursor, p: Parsed)
    requires Clean(toks, s, p.s) && Single(p.t)
    ensures var z := NewLit(p.s, LongLit, 0); Sound(toks, s, MakeSys(z.s, KBin(Sub), z.t, p.t))
  {
  }

  lemma {:induction false} PostfixSound(toks: seq<Token>, env: Env, s: Cursor)
    requires s.err == ERR_OK ==> !TokenAt(toks, s.at).TLeftParen?
    ensures Sound(toks, s, ParsePostfix(toks, env, s))
    decreases Left(toks, s), 10
  {
    hide ParsePrimary, PostfixLoop;
    var p := ParsePrimary(toks, env, s);
    PrimarySound(toks, env, s);
    if p.s.err == ERR_OK {
      PostfixLoopSound(toks, env, p.s, p.t);
      CleanJoin(toks, s, p.s, PostfixLoop(toks, env, p.s, p.t).s);
    } else {
      PostfixSticky(toks, env, p.s, p.t);
    }
  }

  /** An error is never taken back. */
  lemma {:induction false} PostfixSticky(toks: seq<Token>, env: Env, s: Cursor, acc: Tree)
    requires Single(acc) && s.err != ERR_OK
    ensures PostfixLoop(toks, env, s, acc).s.err != ERR_OK
    decreases Left(toks, s), 5
  {
    hide ParseParams;
    var t := TokenAt(toks, s.at);
    if t.TInc? || t.TDec? {
      var q := MakeSys(Skip(s), KStep(if t.TInc? then PostInc else PostDec), acc, Nil);
      PostfixSticky(toks, env, q.s, q.t);
    } else if t.TLeftParen? {
      var p := CallArgs(toks, env, s);
      CallArgsClean(toks, env, s);
      var q := MakeSys(p.s, KFunc, acc, p.t);
      CleanSys(toks, p.s, KFunc, acc, p.t);
      PostfixSticky(toks, env, q.s, q.t);
    }
  }

  /** The argument list of a call, from its left to its right parenthesis. */
  function CallArgs(toks: seq<Token>, env: Env, s: Cursor): (p: Parsed)
    requires TokenAt(toks, s.at).TLeftParen?
    ensures p.s.at > s.at
  {
    if TokenAt(toks, s.at + 1).TRightParen? then Parsed(Skip(Skip(s)), Nil)
    else
      var l := ParseParams(toks, env, Skip(s).(replayed := true));
      Parsed(Match(toks, l.s, TRightParen), l.t)
  }

  lemma {:induction false} CallArgsClean(toks: seq<Token>, env: Env, s: Cursor)
    requires TokenAt(toks, s.at).TLeftParen?
    ensures var p := CallArgs(toks, env, s);
            (p.s.err == ERR_OK ==>
               s.err == ERR_OK && Placed(toks, s.at + 1, p.s.at) && TokenAt(toks, p.s.at - 1).TRightParen?)
    decreases Left(toks, s), 4
  {
    hide ParseParams;
    if !TokenAt(toks, s.at + 1).TRightParen? {
      var s1 := Skip(s).(replayed := true);
      ParamsSound(toks, env, s1);
      var l := ParseParams(toks, env, s1);
      CleanJoin(toks, s1, l.s, Match(toks, l.s, TRightParen));
    }
  }

  lemma {:induction false} PostfixLoopSound(toks: seq<Token>, env: Env, s: Cursor, acc: Tree)
    requires Single(acc) && acc.Node? && s.at > 0 && Ends(TokenAt(toks, s.at - 1))
    ensures Sound(toks, s, PostfixLoop(toks, env, s, acc))
    decreases Left(toks, s), 5
  {
    hide ParseParams, MakeSys, CallArgs;
    var t := TokenAt(toks, s.at);
    if t.TInc? || t.TDec? {
      var k := KStep(if t.TInc? then PostInc else PostDec);
      var q := MakeSys(Skip(s), k, acc, Nil);
      CleanSys(toks, Skip(s), k, acc, Nil);
      CleanJoin(toks, s, Skip(s), q.s);
      LoopOn(toks, env, s, q);
    } else if t.TLeftParen? {
      var p := CallArgs(toks, env, s);
      CallArgsClean(toks, env, s);
      var q := MakeSys(p.s, KFunc, acc, p.t);
      CleanSys(toks, p.s, KFunc, acc, p.t);
      assert Clean(toks, s, p.s);
      CleanJoin(toks, s, p.s, q.s);
      assert PostfixLoop(toks, env, s, acc) == PostfixLoop(toks, env, q.s, q.t) by { CallLoop(toks, env, s, acc); }
      LoopOn(toks, env, s, q);
    }
  }

  lemma CallLoop(toks: seq<Token>, env: Env, s: Cursor, acc: Tree)
    requires Single(acc) && TokenAt(toks, s.at).TLeftParen?
    ensures var p := CallArgs(toks, env, s);
            var q := MakeSys(p.s, KFunc, acc, p.t);
            Single(q.t) && PostfixLoop(toks, env, s, acc) == PostfixLoop(toks, env, q.s, q.t)
  {
    hide ParseParams;
  }

  lemma {:induction false} LoopOn(toks: seq<Token>, env: Env, s: Cursor, q: Parsed)
    requires Clean(toks, s, q.s) && q.s.at > s.at && Single(q.t) && (q.s.err == ERR_OK ==> q.t.Node?)
    requires s.at < |toks| && (q.s.err == ERR_OK ==> Ends(TokenAt(toks, q.s.at - 1)))
    ensures Sound(toks, s, PostfixLoop(toks, env, q.s, q.t))
    decreases Left(toks, s), 4
  {
    hide PostfixLoop;
    if q.s.err == ERR_OK {
      PostfixLoopSound(toks, env, q.s, q.t);
      CleanJoin(toks, s, q.s, PostfixLoop(toks, env, q.s, q.t).s);
    } else {
      PostfixSticky(toks, env, q.s, q.t);
    }
  }

  lemma {:induction false} PrimarySound(toks: seq<Token>, env: Env, s: Cursor)
    ensures var r := ParsePrimary(toks, env, s);
            r.s.err == ERR_OK ==> Ends(TokenAt(toks, r.s.at - 1))
    ensures !TokenAt(toks, s.at).TLeftParen? ==> Sound(toks, s, ParsePrimary(toks, env, s))
    ensures ParsePrimary(toks, env, s).s.err == ERR_OK ==> s.err == ERR_OK
    decreases Left(toks, s), 9
  {
    hide ParseAssign;
    if TokenAt(toks, s.at).TLeftParen? {
      AssignSound(toks, env, Skip(s));
    }
  }

  lemma {:induction false} ParamsSound(toks: seq<Token>, env: Env, s: Cursor)
    ensures Clean(toks, s, ParseParams(toks, env, s).s)
    decreases Left(toks, s), 31
  {
    hide ParseAssign, ParamLoop;
    AssignSound(toks, env, s);
    var p := ParseAssign(toks, env, s);
    if p.t.Node? {
      ParamLoopClean(toks, env, p.s);
      CleanJoin(toks, s, p.s, ParamLoop(toks, env, p.s).s);
    }
  }

  lemma {:induction false} ParamLoopClean(toks: seq<Token>, env: Env, s: Cursor)
    ensures Clean(toks, s, ParamLoop(toks, env, s).s)
    decreases Left(toks, s), 5
  {
    hide ParseAssign;
    if TokenAt(toks, s.at).TComma? {
      AssignSound(toks, env, Skip(s));
      var p := ParseAssign(toks, env, Skip(s));
      CleanJoin(toks, s, Skip(s), p.s);
      if p.t.Nil? {
        ParamLoopClean(toks, env, Fail(p.s, ERR_EXPECT_OPERATOR));
      } else {
        ParamLoopClean(toks, env, p.s);
        CleanJoin(toks, s, p.s, ParamLoop(toks, env, p.s).s);
      }
    }
  }

  // ---------------------------------------------------------- a line of input

  lemma StatementSound(toks: seq<Token>, env: Env, s: Cursor)
    ensures var p := ParseStatement(toks, env, s);
            Clean(toks, s, p.s)
            && (p.s.err == ERR_OK ==>
                  (p.t.Nil? <==> TokenAt(toks, s.at).TSemicolon?) && TokenAt(toks, p.s.at - 1).TSemicolon?)
  {
    hide ParseAssign;
    var s1 := s.(replayed := true);
    AssignSound(toks, env, s1);
    var p := ParseAssign(toks, env, s1);
    CleanJoin(toks, s1, p.s, Match(toks, p.s, TSemicolon));
  }

  /** The parser gets as far as token i. */
  ghost predicate Reached(toks: seq<Token>, from: nat, i: nat) {
    forall j :: from <= j < i ==> !TokenAt(toks, j).TEof? && !TokenAt(toks, j).TBad?
  }

  /** A semicolon with no statement in front of it. */
  ghost predicate Lonely(toks: seq<Token>, j: nat) {
    TokenAt(toks, j).TSemicolon? && (j == 0 || TokenAt(toks, j - 1).TSemicolon?)
  }

  ghost predicate AnyLonely(toks: seq<Token>, to: nat) {
    exists j: nat :: j < to && Lonely(toks, j)
  }

  /** A left parenthesis that follows an operand, or a semicolon on a line where an
      empty statement has been read before. */
  ghost predicate Excused(toks: seq<Token>, i: nat) {
    i > 0 && (Ends(TokenAt(toks, i - 1)) || (TokenAt(toks, i - 1).TSemicolon? && AnyLonely(toks, i)))
  }

  /** Statements start at the front, behind a semicolon, or anywhere once an empty
      statement has been read. */
  ghost predicate Starts(toks: seq<Token>, at: nat) {
    at == 0 || TokenAt(toks, at - 1).TSemicolon? || AnyLonely(toks, at)
  }

  lemma {:induction false} ProgramSound(toks: seq<Token>, env: Env, s: Cursor, started: bool, i: nat)
    requires Starts(toks, s.at) && s.at <= i && Reached(toks, s.at, i) && TokenAt(toks, i).TLeftParen?
    requires ParseProgram(toks, env, s, started).s.err == ERR_OK
    ensures s.err == ERR_OK && Excused(toks, i)
    decreases Left(toks, s)
  {
    hide ParseStatement;
    var t := TokenAt(toks, s.at);
    assert !t.TEof? && !t.TBad?;
    var s1 := s.(replayed := true);
    var p := ParseStatement(toks, env, s1);
    StatementSound(toks, env, s1);
    if p.s.err != ERR_OK {
      ProgramSticky(toks, env, p.s, if p.t.Node? then true else started);
      if started && !t.TIdent? { ProgramSticky(toks, env, Skip(p.s), started); }
    } else if i < p.s.at {
      assert Placed(toks, s.at, p.s.at);
    } else if p.t.Node? {
      ProgramSound(toks, env, p.s, true, i);
    } else {
      EmptyRead(toks, env, s, started, i);
    }
  }

  /** An empty statement leaves no tree; once there is a tree the parser then skips
      the token behind it. */
  lemma EmptyStatement(toks: seq<Token>, env: Env, s: Cursor, started: bool)
    requires TokenAt(toks, s.at).TSemicolon?
    ensures ParseProgram(toks, env, s, started)
            == ParseProgram(toks, env, if started then Skip(Skip(s)) else Skip(s), started)
  {
  }

  /** Behind an empty statement, and past the token that is skipped then. */
  lemma {:induction false} EmptyRead(toks: seq<Token>, env: Env, s: Cursor, started: bool, i: nat)
    requires TokenAt(toks, s.at).TSemicolon? && Starts(toks, s.at) && s.at < i && Reached(toks, s.at, i)
    requires TokenAt(toks, i).TLeftParen? && ParseProgram(toks, env, s, started).s.err == ERR_OK
    ensures s.err == ERR_OK && Excused(toks, i)
    decreases Left(toks, s), 0
  {
    EmptyStatement(toks, env, s, started);
    if started {
      assert AnyLonely(toks, s.at + 1) by { assert AnyLonely(toks, s.at) || Lonely(toks, s.at); }
      if i > s.at + 1 {
        ProgramSound(toks, env, Skip(Skip(s)), started, i);
      } else {
        ProgramSticky(toks, env, Skip(Skip(s)), started);
      }
    } else {
      ProgramSound(toks, env, Skip(s), started, i);
    }
  }

  lemma {:induction false} ProgramSticky(toks: seq<Token>, env: Env, s: Cursor, started: bool)
    ensures ParseProgram(toks, env, s, started).s.err == ERR_OK ==> s.err == ERR_OK
    decreases Left(toks, s)
  {
    hide ParseStatement;
    var t := TokenAt(toks, s.at);
    if !t.TEof? && !t.TBad? {
      var s1 := s.(replayed := true);
      var p := ParseStatement(toks, env, s1);
      StatementSound(toks, env, s1);
      if p.t.Node? {
        ProgramSticky(toks, env, p.s, true);
      } else {
        ProgramSticky(toks, env, if started && !t.TIdent? then Skip(p.s) else p.s, started);
      }
    }
  }

  const START: Cursor := Cursor(0, false, 0, ERR_OK)

  /** Parentheses are rejected wherever they would group: a line in which the parser
      gets to a left parenthesis that follows no operand ends in an error. (A call's
      parenthesis follows an operand; the one exception stands right behind a
      semicolon, after an empty statement, where the parser may skip it.) */
  lemma ParenthesesRejected(toks: seq<Token>, env: Env, i: nat)
    requires i < |toks| && toks[i].TLeftParen? && Reached(toks, 0, i) && !Excused(toks, i)
    ensures ParseProgram(toks, env, START, false).s.err != ERR_OK
  {
    hide ParseProgram;
    if ParseProgram(toks, env, START, false).s.err == ERR_OK { ProgramSound(toks, env, START, false, i); }
  }
}
