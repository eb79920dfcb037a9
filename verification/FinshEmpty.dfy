/** Lines with empty statements: behind the first tree the parser of finsh_parser.c
    skips the token after each of them. When it keeps the line's meaning all the same. */
module FinshEmpty {
  import opened Basics
  import opened FinshOperators
  import opened FinshMachine
  import opened FinshSyntax
  import opened FinshParser
  import opened FinshRejects
  import opened FinshTokens

  // --------------------------------------------------- lines of statements

  /** A line as a list of statements, some of them empty. */
  type Items = seq<Option<Expr>>

  function LinearItem(x: Option<Expr>): (ts: seq<Token>)
    ensures |ts| > 0
  {
    match x case None => [TSemicolon] case Some(e) => Linear(e) + [TSemicolon]
  }

  function LinearItems(items: Items): seq<Token> {
    if |items| == 0 then [] else LinearItem(items[0]) + LinearItems(items[1..])
  }

  /** The statements that are not empty. */
  function Statements(items: Items): seq<Expr> {
    if |items| == 0 then []
    else (match items[0] case None => [] case Some(e) => [e]) + Statements(items[1..])
  }

  /** What the parser makes of the line: an empty statement behind a tree swallows the
      next token. That may be the empty statement behind it; a statement of one token,
      whose semicolon then is another empty statement; or the zero of a minus. None if a
      statement of several tokens loses another first token. */
  function Kept(items: Items, started: bool): Option<seq<Expr>>
    decreases |items|
  {
    if |items| == 0 then Some([])
    else
      match items[0]
      case Some(e) => Front(e, Kept(items[1..], true))
      case None =>
        if !started || |items| == 1 then Kept(items[1..], started)
        else
          match items[1]
          case None => Kept(items[2..], true)
          case Some(e) =>
            if |Linear(e)| == 1 then Kept([None] + items[2..], true)
            else if Strip(e).None? then None
            else Front(Strip(e).value, Kept(items[2..], true))
  }

  function Front(e: Expr, r: Option<seq<Expr>>): Option<seq<Expr>> {
    if r.None? then None else Some([e] + r.value)
  }

  /** No empty statement takes anything away: behind the first tree they come in pairs,
      at the end of the line, or in front of a zero that can be left out. */
  predicate Harmless(items: Items, started: bool)
    decreases |items|
  {
    |items| == 0
    || match items[0]
       case Some(_) => Harmless(items[1..], true)
       case None =>
         if !started || |items| == 1 then Harmless(items[1..], started)
         else (items[1].None? || Strip(items[1].value).Some?) && Harmless(items[2..], true)
  }

  ghost predicate ItemsFit(items: Items, env: Env) {
    forall i :: 0 <= i < |items| && items[i].Some? ==> Fits(items[i].value, env)
  }

  /** The line stands at the cursor and ends the input. */
  ghost predicate AtEnd(toks: seq<Token>, s: Cursor, ts: seq<Token>) {
    Reads(toks, s.at, ts) && s.at + |ts| == |toks|
  }

  lemma AtEndSplit(toks: seq<Token>, s: Cursor, a: seq<Token>, b: seq<Token>)
    requires AtEnd(toks, s, a + b)
    ensures Reads(toks, s.at, a) && AtEnd(toks, s.(at := s.at + |a|), b)
  {
    ReadsSplit(toks, s.at, a, b);
  }

  lemma NodesOfKept(e: Expr, rest: seq<Expr>, env: Env)
    ensures NodesOfAll([e] + rest) == Nodes(e) + NodesOfAll(rest)
    ensures LowerAll([e] + rest, env) == WithSibling(Lower(e, env), LowerAll(rest, env))
  {
    assert ([e] + rest)[1..] == rest;
  }

  /** One statement, then the rest. */
  lemma ReadStatement(e: Expr, toks: seq<Token>, env: Env, s: Cursor, started: bool, rest: seq<Token>)
    requires Fits(e, env) && AtEnd(toks, s, Linear(e) + [TSemicolon] + rest) && s.used + Nodes(e) <= NODE_MAX
    ensures var q := ParseProgram(toks, env, Skip(After(s, e)), true);
            ParseProgram(toks, env, s, started) == Parsed(q.s, WithSibling(Lower(e, env), q.t))
    ensures AtEnd(toks, Skip(After(s, e)), rest)
  {
    hide ParseProgram, ParseStatement, Linear, Fits, Nodes, Lower;
    AtEndSplit(toks, s, Linear(e) + [TSemicolon], rest);
    ReadsSplit(toks, s.at, Linear(e), [TSemicolon]);
    ReadsOne(toks, s.at + |Linear(e)|, TSemicolon);
    StatementDone(e, toks, env, s.(replayed := true));
    ProgramTurn(toks, env, s, started);
  }

  /** The whole line: exactly the statements kept, and no error. */
  lemma {:induction false} KeptParsed(items: Items, toks: seq<Token>, env: Env, s: Cursor, started: bool)
    requires ItemsFit(items, env) && AtEnd(toks, s, LinearItems(items)) && Kept(items, started).Some?
    requires s.used + NodesOfAll(Kept(items, started).value) <= NODE_MAX
    ensures var r, k := ParseProgram(toks, env, s, started), Kept(items, started).value;
            r.t == LowerAll(k, env) && r.s.err == s.err && r.s.used == s.used + NodesOfAll(k)
    decreases |items|
  {
    hide ParseProgram, Linear, Fits, Nodes, NodesOfAll, Lower, LowerAll, AtEnd;
    if |items| == 0 {
      LineEnds(toks, env, s, started);
    } else if items[0].Some? {
      var e := items[0].value;
      var k := Kept(items[1..], true).value;
      NodesOfKept(e, k, env);
      ReadStatement(e, toks, env, s, started, LinearItems(items[1..]));
      KeptParsed(items[1..], toks, env, Skip(After(s, e)), true);
    } else {
      KeptEmpty(items, toks, env, s, started);
    }
  }

  lemma LineEnds(toks: seq<Token>, env: Env, s: Cursor, started: bool)
    requires AtEnd(toks, s, [])
    ensures ParseProgram(toks, env, s, started) == Parsed(Skip(s), Nil) && LowerAll([], env) == Nil
            && NodesOfAll([]) == 0
  {
    ProgramEnds(toks, env, s, started);
  }

  /** A cursor past the end reads the end token for ever. */
  lemma PastEnd(toks: seq<Token>, env: Env, s: Cursor, started: bool)
    requires s.at >= |toks|
    ensures ParseProgram(toks, env, s, started) == Parsed(Skip(s), Nil) && LowerAll([], env) == Nil
            && NodesOfAll([]) == 0
  {
  }

  lemma {:induction false} KeptEmpty(items: Items, toks: seq<Token>, env: Env, s: Cursor, started: bool)
    requires |items| > 0 && items[0].None?
    requires ItemsFit(items, env) && AtEnd(toks, s, LinearItems(items)) && Kept(items, started).Some?
    requires s.used + NodesOfAll(Kept(items, started).value) <= NODE_MAX
    ensures var r, k := ParseProgram(toks, env, s, started), Kept(items, started).value;
            r.t == LowerAll(k, env) && r.s.err == s.err && r.s.used == s.used + NodesOfAll(k)
    decreases |items|, 1
  {
    hide ParseProgram, Linear, Fits, Nodes, NodesOfAll, Lower, LowerAll, AtEnd;
    var rest := LinearItems(items[1..]);
    AtEndSplit(toks, s, [TSemicolon], rest);
    ReadsOne(toks, s.at, TSemicolon);
    EmptyStatement(toks, env, s, started);
    if !started {
      AtEndAt(toks, s.(at := s.at + 1), Skip(s), rest);
      KeptParsed(items[1..], toks, env, Skip(s), false);
    } else if |items| == 1 {
      PastEnd(toks, env, Skip(Skip(s)), true);
    } else {
      AtEndAt(toks, s.(at := s.at + 1), Skip(s), rest);
      KeptSwallowing(items, toks, env, s);
    }
  }

  /** The token behind the empty statement is swallowed. */
  lemma {:induction false} KeptSwallowing(items: Items, toks: seq<Token>, env: Env, s: Cursor)
    requires |items| > 1 && items[0].None? && ItemsFit(items, env) && AtEnd(toks, Skip(s), LinearItems(items[1..]))
    requires Kept(items, true).Some? && s.used + NodesOfAll(Kept(items, true).value) <= NODE_MAX
    requires ParseProgram(toks, env, s, true) == ParseProgram(toks, env, Skip(Skip(s)), true)
    ensures var r, k := ParseProgram(toks, env, s, true), Kept(items, true).value;
            r.t == LowerAll(k, env) && r.s.err == s.err && r.s.used == s.used + NodesOfAll(k)
    decreases |items|, 0
  {
    hide ParseProgram, Linear, Fits, Nodes, NodesOfAll, Lower, LowerAll, AtEnd, LinearItems, Strip;
    var more := items[2..];
    var s2 := Skip(Skip(s));
    SwallowShape(items);
    if items[1].None? {
      AtEndSplit(toks, Skip(s), [TSemicolon], LinearItems(more));
      AtEndAt(toks, Skip(s).(at := s.at + 2), s2, LinearItems(more));
      KeptParsed(more, toks, env, s2, true);
    } else if |Linear(items[1].value)| == 1 {
      var left: Items := [None] + more;
      AtEndSplit(toks, Skip(s), Linear(items[1].value), LinearItems(left));
      AtEndAt(toks, Skip(s).(at := s.at + 2), s2, LinearItems(left));
      forall i | 0 <= i < |left| && left[i].Some? ensures Fits(left[i].value, env) { assert left[i] == items[i + 1]; }
      KeptParsed(left, toks, env, s2, true);
    } else {
      var e' := Strip(items[1].value).value;
      StripReads(items[1].value, toks, env, s, LinearItems(more));
      var k := Kept(more, true).value;
      NodesOfKept(e', k, env);
      ReadStatement(e', toks, env, s2, true, LinearItems(more));
      KeptParsed(more, toks, env, Skip(After(s2, e')), true);
    }
  }

  /** The zero of a minus is skipped: what is left is the expression without it. */
  lemma StripReads(e: Expr, toks: seq<Token>, env: Env, s: Cursor, rest: seq<Token>)
    requires Strip(e).Some? && Fits(e, env) && AtEnd(toks, Skip(s), Linear(e) + [TSemicolon] + rest)
    ensures var e' := Strip(e).value;
            AtEnd(toks, Skip(Skip(s)), Linear(e') + [TSemicolon] + rest)
            && Fits(e', env) && Nodes(e') == Nodes(e) && Plain(Lower(e', env)) == Plain(Lower(e, env))
  {
    hide Linear, Fits, Nodes, Lower, AtEnd, Strip, Plain;
    var e', z := Strip(e).value, Linear(e)[0];
    StripSame(e, env);
    StripFits(e, env);
    var ts := Linear(e') + [TSemicolon] + rest;
    assert Linear(e) + [TSemicolon] + rest == [z] + ts;
    AtEndSplit(toks, Skip(s), [z], ts);
    AtEndAt(toks, Skip(s).(at := s.at + 2), Skip(Skip(s)), ts);
  }

  lemma SwallowShape(items: Items)
    requires |items| > 1
    ensures items[1].None? ==> LinearItems(items[1..]) == [TSemicolon] + LinearItems(items[2..])
    ensures items[1].Some? ==>
              LinearItems(items[1..]) == Linear(items[1].value) + [TSemicolon] + LinearItems(items[2..])
              && LinearItems(items[1..]) == Linear(items[1].value) + LinearItems([None] + items[2..])
  {
    hide Linear;
    var left: Items := [None] + items[2..];
    assert left[1..] == items[2..] && left[0] == None;
    assert items[1..][0] == items[1] && items[1..][1..] == items[2..];
    if items[1].Some? {
      var ts := Linear(items[1].value);
      assert ts + [TSemicolon] + LinearItems(items[2..]) == ts + ([TSemicolon] + LinearItems(items[2..]));
    }
  }

  lemma AtEndAt(toks: seq<Token>, s: Cursor, s': Cursor, ts: seq<Token>)
    requires AtEnd(toks, s, ts) && s'.at == s.at
    ensures AtEnd(toks, s', ts)
  {
  }

  /** A harmless line keeps its meaning. */
  lemma {:induction false} HarmlessKept(items: Items, started: bool, env: Env)
    requires Harmless(items, started)
    ensures Kept(items, started).Some?
    ensures var k := Kept(items, started).value;
            Plain(LowerAll(k, env)) == Plain(LowerAll(Statements(items), env))
            && NodesOfAll(k) == NodesOfAll(Statements(items))
    decreases |items|
  {
    if |items| > 0 {
      hide Linear, Strip, Lower, Nodes, LowerAll, NodesOfAll, Plain;
      if items[0].Some? {
        HarmlessKept(items[1..], true, env);
        KeptFront(items[0].value, items[0].value, Kept(items[1..], true).value, Statements(items[1..]), env);
      } else if !started || |items| == 1 {
        HarmlessKept(items[1..], started, env);
        StatementsSkip(items);
      } else {
        HarmlessKept(items[2..], true, env);
        StatementsSkip(items);
        if items[1].Some? {
          var e := items[1].value;
          StripSame(e, env);
          KeptFront(Strip(e).value, e, Kept(items[2..], true).value, Statements(items[2..]), env);
        }
      }
    }
  }

  lemma KeptFront(e: Expr, e': Expr, k: seq<Expr>, k': seq<Expr>, env: Env)
    requires Plain(Lower(e, env)) == Plain(Lower(e', env)) && Nodes(e) == Nodes(e')
    requires Plain(LowerAll(k, env)) == Plain(LowerAll(k', env)) && NodesOfAll(k) == NodesOfAll(k')
    ensures Plain(LowerAll([e] + k, env)) == Plain(LowerAll([e'] + k', env))
    ensures NodesOfAll([e] + k) == NodesOfAll([e'] + k')
  {
    hide Lower, LowerAll, Nodes, NodesOfAll, Plain;
    NodesOfKept(e, k, env);
    NodesOfKept(e', k', env);
    PlainSibling(Lower(e, env), LowerAll(k, env));
    PlainSibling(Lower(e', env), LowerAll(k', env));
  }

  lemma StatementsSkip(items: Items)
    requires |items| > 0
    ensures items[0].None? ==> Statements(items) == Statements(items[1..])
    ensures |items| > 1 && items[0].None? ==>
              Statements(items) == (if items[1].None? then [] else [items[1].value]) + Statements(items[2..])
    ensures |items| > 1 ==> Statements([None] + items[2..]) == Statements(items[2..])
  {
    if |items| > 1 {
      assert items[1..][0] == items[1] && items[1..][1..] == items[2..];
      assert ([None] + items[2..])[1..] == items[2..];
    }
  }

  // ------------------------------------------------------- what is lost is lost

  function Links(t: Tree): nat {
    match t case Nil => 0 case Node(_, _, s) => 1 + Links(s)
  }

  lemma {:induction false} ChainLength(stmts: seq<Expr>, env: Env)
    ensures Links(LowerAll(stmts, env)) == |stmts|
    decreases |stmts|
  {
    hide Lower;
    AllShape(stmts, env);
    if |stmts| > 0 { ChainLength(stmts[1..], env); }
  }

  lemma {:induction false} PlainLinks(t: Tree)
    ensures Links(Plain(t)) == Links(t)
  {
    if t.Node? { PlainLinks(t.sibling); }
  }

  /** A statement read without an error ends at the next semicolon. */
  lemma StatementEnds(toks: seq<Token>, env: Env, s: Cursor, to: nat)
    requires s.at < to && NoSemicolon(toks, s.at, to) && TokenAt(toks, to).TSemicolon?
    requires ParseStatement(toks, env, s).s.err == ERR_OK
    ensures var p := ParseAssign(toks, env, s.(replayed := true));
            ParseStatement(toks, env, s) == Parsed(Skip(p.s), p.t)
            && p.s.err == ERR_OK && p.s.at == to && p.t.Node?
  {
    hide ParseAssign, Weight;
    var s1 := s.(replayed := true);
    var p := ParseAssign(toks, env, s1);
    assert !TokenAt(toks, s.at).TSemicolon?;
    AssignSound(toks, env, s1);
    AssignPaid(toks, env, s1);
    Opened(toks, s.at, p.s.at, Weight(p.t));
  }

  /** The end of an expression and of the statement it makes. */
  lemma LinearEnds(e: Expr, env: Env, toks: seq<Token>, s: Cursor, rest: seq<Token>)
    requires AtEnd(toks, s, Linear(e) + [TSemicolon] + rest)
    ensures var to := s.at + |Linear(e)|;
            Reads(toks, s.at, Linear(e)) && NoSemicolon(toks, s.at, to) && TokenAt(toks, to).TSemicolon?
            && AtEnd(toks, s.(at := to + 1), rest)
    ensures forall i: nat :: s.at <= i < s.at + |Linear(e)| ==> !TokenAt(toks, i).TEof? && !TokenAt(toks, i).TBad?
  {
    hide Linear;
    AtEndSplit(toks, s, Linear(e) + [TSemicolon], rest);
    ReadsSplit(toks, s.at, Linear(e), [TSemicolon]);
    ReadsOne(toks, s.at + |Linear(e)|, TSemicolon);
    LinearWorth(e, env, toks, s.at);
  }

  /** One turn of the program loop over the last tokens of an expression, at least one. */
  lemma TurnOver(e: Expr, toks: seq<Token>, env: Env, s: Cursor, started: bool, rest: seq<Token>, s': Cursor)
    requires AtEnd(toks, s, Linear(e) + [TSemicolon] + rest) && s.at <= s'.at < s.at + |Linear(e)|
    requires ParseProgram(toks, env, s', started).s.err == ERR_OK
    ensures var a := ParseAssign(toks, env, s'.(replayed := true));
            var q := ParseProgram(toks, env, Skip(a.s), true);
            a.s.err == ERR_OK && a.s.at == s.at + |Linear(e)| && a.t.Node? && AtEnd(toks, Skip(a.s), rest)
            && ParseProgram(toks, env, s', started) == Parsed(q.s, WithSibling(a.t, q.t))
  {
    hide ParseAssign, ParseProgram, ParseStatement, Linear, AtEnd;
    LinearEnds(e, env, toks, s, rest);
    var s1 := s'.(replayed := true);
    var p := ParseStatement(toks, env, s1);
    var to := s.at + |Linear(e)|;
    StatementSound(toks, env, s1);
    StatementOk(toks, env, s', started);
    StatementEnds(toks, env, s1, to);
    ProgramTurn(toks, env, s', started);
    AtEndAt(toks, s.(at := to + 1), p.s, rest);
  }

  lemma StatementOk(toks: seq<Token>, env: Env, s: Cursor, started: bool)
    requires !TokenAt(toks, s.at).TEof? && !TokenAt(toks, s.at).TBad?
    requires ParseProgram(toks, env, s, started).s.err == ERR_OK
    ensures ParseStatement(toks, env, s.(replayed := true)).s.err == ERR_OK
  {
    hide ParseStatement;
    var p := ParseStatement(toks, env, s.(replayed := true));
    if p.t.Node? {
      ProgramSticky(toks, env, p.s, true);
    } else {
      ProgramSticky(toks, env, if started && !TokenAt(toks, s.at).TIdent? then Skip(p.s) else p.s, started);
    }
  }

  /** The parser never finds more statements than there are. */
  lemma {:induction false} NoMore(items: Items, toks: seq<Token>, env: Env, s: Cursor, started: bool)
    requires AtEnd(toks, s, LinearItems(items)) && ParseProgram(toks, env, s, started).s.err == ERR_OK
    ensures Links(ParseProgram(toks, env, s, started).t) <= |Statements(items)|
    decreases |items|
  {
    hide ParseProgram, ParseAssign, Linear, AtEnd;
    if |items| == 0 {
      LineEnds(toks, env, s, started);
    } else if items[0].Some? {
      var e, rest := items[0].value, LinearItems(items[1..]);
      TurnOver(e, toks, env, s, started, rest, s);
      NoMore(items[1..], toks, env, Skip(ParseAssign(toks, env, s.(replayed := true)).s), true);
    } else {
      var rest := LinearItems(items[1..]);
      AtEndSplit(toks, s, [TSemicolon], rest);
      ReadsOne(toks, s.at, TSemicolon);
      EmptyStatement(toks, env, s, started);
      AtEndAt(toks, s.(at := s.at + 1), Skip(s), rest);
      StatementsSkip(items);
      if !started {
        NoMore(items[1..], toks, env, Skip(s), false);
      } else if |items| == 1 {
        PastEnd(toks, env, Skip(Skip(s)), true);
      } else {
        NoMoreSwallowing(items, toks, env, s);
      }
    }
  }

  lemma {:induction false} NoMoreSwallowing(items: Items, toks: seq<Token>, env: Env, s: Cursor)
    requires |items| > 1 && items[0].None? && AtEnd(toks, Skip(s), LinearItems(items[1..]))
    requires ParseProgram(toks, env, Skip(Skip(s)), true).s.err == ERR_OK
    ensures var n := Links(ParseProgram(toks, env, Skip(Skip(s)), true).t);
            n <= |Statements(items)|
            && (items[1].Some? && |Linear(items[1].value)| == 1 ==> n < |Statements(items)|)
    decreases |items|, 0
  {
    hide ParseProgram, ParseAssign, Linear, AtEnd, LinearItems, Statements;
    var more, s2 := items[2..], Skip(Skip(s));
    SwallowShape(items);
    StatementsSkip(items);
    if items[1].None? {
      AtEndSplit(toks, Skip(s), [TSemicolon], LinearItems(more));
      AtEndAt(toks, Skip(s).(at := s.at + 2), s2, LinearItems(more));
      NoMore(more, toks, env, s2, true);
    } else if |Linear(items[1].value)| == 1 {
      var left: Items := [None] + more;
      AtEndSplit(toks, Skip(s), Linear(items[1].value), LinearItems(left));
      AtEndAt(toks, Skip(s).(at := s.at + 2), s2, LinearItems(left));
      NoMore(left, toks, env, s2, true);
    } else {
      TurnOver(items[1].value, toks, env, Skip(s), true, LinearItems(more), s2);
      NoMore(more, toks, env, Skip(ParseAssign(toks, env, s2.(replayed := true)).s), true);
    }
  }

  /** A line whose tree is right, but for the kinds of literals, is harmless. */
  lemma {:induction false} OnlyHarmless(items: Items, toks: seq<Token>, env: Env, s: Cursor, started: bool)
    requires ItemsFit(items, env) && AtEnd(toks, s, LinearItems(items))
    requires s.used + NodesOfAll(Statements(items)) <= NODE_MAX
    requires var r := ParseProgram(toks, env, s, started);
             r.s.err == ERR_OK && Plain(r.t) == Plain(LowerAll(Statements(items), env))
    ensures Harmless(items, started)
    decreases |items|
  {
    hide ParseProgram, Linear, Fits, Nodes, NodesOfAll, Lower, LowerAll, AtEnd, Strip, Plain;
    if |items| == 0 {
    } else if items[0].Some? {
      var e, rest := items[0].value, Statements(items[1..]);
      NodesOfKept(e, rest, env);
      ReadStatement(e, toks, env, s, started, LinearItems(items[1..]));
      ChainTail(Lower(e, env), Lower(e, env), ParseProgram(toks, env, Skip(After(s, e)), true).t, LowerAll(rest, env));
      OnlyHarmless(items[1..], toks, env, Skip(After(s, e)), true);
    } else {
      var rest := LinearItems(items[1..]);
      AtEndSplit(toks, s, [TSemicolon], rest);
      ReadsOne(toks, s.at, TSemicolon);
      EmptyStatement(toks, env, s, started);
      AtEndAt(toks, s.(at := s.at + 1), Skip(s), rest);
      StatementsSkip(items);
      if !started {
        OnlyHarmless(items[1..], toks, env, Skip(s), false);
      } else if |items| > 1 {
        OnlyHarmlessSwallowing(items, toks, env, s);
      }
    }
  }

  lemma {:induction false} OnlyHarmlessSwallowing(items: Items, toks: seq<Token>, env: Env, s: Cursor)
    requires |items| > 1 && items[0].None? && ItemsFit(items, env) && AtEnd(toks, Skip(s), LinearItems(items[1..]))
    requires s.used + NodesOfAll(Statements(items)) <= NODE_MAX
    requires var r := ParseProgram(toks, env, Skip(Skip(s)), true);
             r.s.err == ERR_OK && Plain(r.t) == Plain(LowerAll(Statements(items), env))
    ensures (items[1].None? || Strip(items[1].value).Some?) && Harmless(items[2..], true)
    decreases |items|, 0
  {
    hide ParseProgram, ParseAssign, Linear, Fits, Nodes, NodesOfAll, Lower, LowerAll, AtEnd;
    hide Strip, LinearItems, Statements, Harmless, Plain;
    var more, s2 := items[2..], Skip(Skip(s));
    SwallowShape(items);
    StatementsSkip(items);
    if items[1].None? {
      AtEndSplit(toks, Skip(s), [TSemicolon], LinearItems(more));
      AtEndAt(toks, Skip(s).(at := s.at + 2), s2, LinearItems(more));
      assert [] + Statements(more) == Statements(more);
      OnlyHarmless(more, toks, env, s2, true);
    } else {
      var e, rest := items[1].value, Statements(more);
      if |Linear(e)| == 1 {
        NoMoreSwallowing(items, toks, env, s);
        ChainLength(Statements(items), env);
        PlainLinks(ParseProgram(toks, env, s2, true).t);
        PlainLinks(LowerAll(Statements(items), env));
        assert false;
      }
      NodesOfKept(e, rest, env);
      TurnOver(e, toks, env, Skip(s), true, LinearItems(more), s2);
      var a := ParseAssign(toks, env, s2.(replayed := true));
      ChainTail(a.t, Lower(e, env), ParseProgram(toks, env, Skip(a.s), true).t, LowerAll(rest, env));
      LinearEnds(e, env, toks, Skip(s), LinearItems(more));
      FirstLost(e, toks, env, s2.(replayed := true));
      StripReads(e, toks, env, s, LinearItems(more));
      var e' := Strip(e).value;
      ReadStatement(e', toks, env, s2, true, LinearItems(more));
      var q := ParseProgram(toks, env, Skip(After(s2, e')), true);
      ChainTail(Lower(e', env), Lower(e, env), q.t, LowerAll(rest, env));
      OnlyHarmless(more, toks, env, Skip(After(s2, e')), true);
    }
  }

  /** Chains are equal only link by link. */
  lemma ChainTail(a: Tree, b: Tree, s: Tree, t: Tree)
    requires a.Node? && b.Node? && a.sibling.Nil? && b.sibling.Nil?
    ensures Plain(WithSibling(a, s)) == Plain(WithSibling(b, t)) <==> Plain(a) == Plain(b) && Plain(s) == Plain(t)
  {
  }

  // ---------------------------------------------------------------- whole lines

  /** A line is read without an error as all of its statements, but for the kinds of
      literals, exactly if no empty statement does harm. */
  lemma EmptyStatementsIff(items: Items, toks: seq<Token>, env: Env)
    requires ItemsFit(items, env) && toks == LinearItems(items) && NodesOfAll(Statements(items)) <= NODE_MAX
    ensures var r := ParseProgram(toks, env, START, false);
            r.s.err == ERR_OK && Plain(r.t) == Plain(LowerAll(Statements(items), env)) <==> Harmless(items, false)
  {
    hide ParseProgram, LinearItems, Statements, Kept, Harmless, LowerAll, NodesOfAll, Plain;
    WholeLine(items, toks);
    var r := ParseProgram(toks, env, START, false);
    if Harmless(items, false) {
      HarmlessKept(items, false, env);
      KeptParsed(items, toks, env, START, false);
    } else if r.s.err == ERR_OK && Plain(r.t) == Plain(LowerAll(Statements(items), env)) {
      OnlyHarmless(items, toks, env, START, false);
    }
  }

  lemma WholeLine(items: Items, toks: seq<Token>)
    requires toks == LinearItems(items)
    ensures AtEnd(toks, START, LinearItems(items))
  {
    assert toks[0..|toks|] == toks;
  }

  /** The line 1;;2; loses its second statement, without an error. */
  lemma LostStatement(k: LitKind, v: Word, w: Word, env: Env)
    ensures var toks := [TLit(k, v), TSemicolon, TSemicolon, TLit(k, w), TSemicolon];
            toks == LinearItems([Some(Lit(k, v)), None, Some(Lit(k, w))])
            && ParseProgram(toks, env, START, false).s.err == ERR_OK
            && ParseProgram(toks, env, START, false).t == LowerAll([Lit(k, v)], env)
  {
    var a, b := Lit(k, v), Lit(k, w);
    var items: Items := [Some(a), None, Some(b)];
    var tail: Items := [None, Some(b)];
    var toks := [TLit(k, v), TSemicolon, TSemicolon, TLit(k, w), TSemicolon];
    assert items[1..] == tail && tail[1..] == [Some(b)] && tail[2..] == [] && [Some(b)][1..] == [];
    assert LinearItems([Some(b)]) == [TLit(k, w), TSemicolon];
    assert LinearItems(tail) == [TSemicolon] + LinearItems([Some(b)]);
    assert toks == LinearItems(items);
    KeptFirst(a, b);
    WholeLine(items, toks);
    hide ParseProgram, LinearItems, Kept;
    KeptParsed(items, toks, env, START, false);
  }

  lemma KeptFirst(a: Expr, b: Expr)
    requires |Linear(b)| == 1
    ensures Kept([Some(a), None, Some(b)], false) == Some([a])
  {
    var tail: Items := [None, Some(b)];
    var left: Items := [None] + tail[2..];
    assert [Some(a), None, Some(b)][1..] == tail && left[1..] == [];
    assert Kept(left, true) == Some([]);
    assert Kept(tail, true) == Kept(left, true);
    assert [a] + [] == [a];
  }
}
