/**
 The language of what-if expressions as a grammar in the usual sense, which says of any token list whether it
 writes a tree, and that the parser accepts exactly this language, with these trees.
 */
module WhatIfLanguage {
  import opened WhatIfTokens
  import opened WhatIfGrammar

  /** expr ::= term | expr ('+' | '-') term */
  ghost predicate IsExpr(t: Tree, ts: seq<string>)
    decreases |ts|, 4
  {
    IsTerm(t, ts) || exists i: nat :: i < |ts| && IsSum(t, ts, i)
  }

  ghost predicate IsSum(t: Tree, ts: seq<string>, i: nat)
    requires i < |ts|
    decreases |ts|, 0
  {
    t.Bin? && t.op == ts[i] && ts[i] in ["+", "-"] && IsExpr(t.l, ts[..i]) && IsTerm(t.r, ts[i + 1..])
  }

  /** term ::= unary | term ('*' | '/') unary */
  ghost predicate IsTerm(t: Tree, ts: seq<string>)
    decreases |ts|, 3
  {
    IsUnary(t, ts) || exists i: nat :: i < |ts| && IsProduct(t, ts, i)
  }

  ghost predicate IsProduct(t: Tree, ts: seq<string>, i: nat)
    requires i < |ts|
    decreases |ts|, 0
  {
    t.Bin? && t.op == ts[i] && ts[i] in ["*", "/"] && IsTerm(t.l, ts[..i]) && IsUnary(t.r, ts[i + 1..])
  }

  /** unary ::= primary | ('+' | '-') unary, which stands for 0 plus or minus it */
  ghost predicate IsUnary(t: Tree, ts: seq<string>)
    decreases |ts|, 2
  {
    || IsPrimary(t, ts)
    || (ts != [] && ts[0] in ["+", "-"] && t.Bin? && t.op == ts[0] && t.l == Num("0") && IsUnary(t.r, ts[1..]))
  }

  /** primary ::= number | name | '(' expr ')' | function '(' expr ',' expr { ',' expr } ')' */
  ghost predicate IsPrimary(t: Tree, ts: seq<string>)
    decreases |ts|, 1
  {
    || (|ts| == 1 && NumberStart(ts[0]) && t == Num(ts[0]))
    || (|ts| == 1 && NameStart(ts[0]) && t == Ref(ts[0]))
    || (|ts| > 2 && ts[0] == "(" && ts[|ts| - 1] == ")" && IsExpr(t, ts[1..|ts| - 1]))
    || (|ts| > 3 && t.Fn? && t.fn == ts[0] && NameStart(ts[0]) && KnownFunction(ts[0]) && |t.args| >= 2
        && ts[1] == "(" && ts[|ts| - 1] == ")" && AreArgs(t.args, ts[2..|ts| - 1]))
  }

  ghost predicate AreArgs(args: seq<Tree>, ts: seq<string>)
    decreases |ts|, 5
  {
    || (|args| == 1 && IsExpr(args[0], ts))
    || (|args| > 1 && exists i: nat :: i < |ts| && IsListed(args, ts, i))
  }

  ghost predicate IsListed(args: seq<Tree>, ts: seq<string>, i: nat)
    requires i < |ts| && |args| > 1
    decreases |ts|, 0
  {
    ts[i] == "," && IsExpr(args[0], ts[..i]) && AreArgs(args[1..], ts[i + 1..])
  }

  // ----- what is in the language is accepted

  predicate Ends(rest: seq<string>, afterTerm: bool) {
    rest == [] || (rest[0] != "(" && (afterTerm ==> !Multiplicative(rest[0])))
  }

  lemma {:induction false} ExprAccepted(t: Tree, a: seq<string>, rest: seq<string>)
    requires IsExpr(t, a) && Ends(rest, true)
    ensures ParseExpr(a + rest) == ExprLoop(t, rest)
    decreases |a|, 4
  {
    hide NumberStart, NameStart, KnownFunction;
    if IsTerm(t, a) {
      hide IsTerm;
      TermAccepted(t, a, rest);
    } else {
      var i: nat :| i < |a| && IsSum(t, a, i);
      var more := [a[i]] + a[i + 1..] + rest;
      assert a + rest == a[..i] + more && more[1..] == a[i + 1..] + rest;
      hide IsTerm;
      ExprAccepted(t.l, a[..i], more);
      TermAccepted(t.r, a[i + 1..], rest);
      assert t == Bin(a[i], t.l, t.r);
    }
  }

  lemma {:induction false} TermAccepted(t: Tree, a: seq<string>, rest: seq<string>)
    requires IsTerm(t, a) && Ends(rest, false)
    ensures ParseTerm(a + rest) == TermLoop(t, rest)
    decreases |a|, 3
  {
    hide NumberStart, NameStart, KnownFunction;
    if IsUnary(t, a) {
      hide IsUnary;
      UnaryAccepted(t, a, rest);
    } else {
      var i: nat :| i < |a| && IsProduct(t, a, i);
      var more := [a[i]] + a[i + 1..] + rest;
      assert a + rest == a[..i] + more && more[1..] == a[i + 1..] + rest;
      hide IsUnary;
      TermAccepted(t.l, a[..i], more);
      UnaryAccepted(t.r, a[i + 1..], rest);
      assert t == Bin(a[i], t.l, t.r);
    }
  }

  lemma {:induction false} UnaryAccepted(t: Tree, a: seq<string>, rest: seq<string>)
    requires IsUnary(t, a) && Ends(rest, false)
    ensures ParseUnary(a + rest) == Good(t, rest)
    decreases |a|, 2
  {
    if IsPrimary(t, a) {
      PrimaryAccepted(t, a, rest);
    } else {
      hide NumberStart, NameStart, KnownFunction, IsPrimary;
      assert (a + rest)[1..] == a[1..] + rest;
      UnaryAccepted(t.r, a[1..], rest);
      assert t == Bin(a[0], Num("0"), t.r);
    }
  }

  lemma {:induction false} PrimaryAccepted(t: Tree, a: seq<string>, rest: seq<string>)
    requires IsPrimary(t, a) && Ends(rest, false)
    ensures ParseUnary(a + rest) == ParsePrimary(a + rest) == Good(t, rest)
    decreases |a|, 1
  {
    var ts, n := a + rest, |a|;
    hide KnownFunction, IsExpr, AreArgs, ParseExpr, ParseArgs;
    if |a| == 1 {
      assert ts[1..] == rest;
    } else if a[0] == "(" {
      assert ts[1..] == a[1..n - 1] + ([")"] + rest) && ([")"] + rest)[1..] == rest;
      ExprAccepted(t, a[1..n - 1], [")"] + rest);
    } else {
      assert ts[2..] == a[2..n - 1] + ([")"] + rest) && ([")"] + rest)[1..] == rest;
      ArgsAccepted([], t.args, a[2..n - 1], [")"] + rest);
      assert [] + t.args == t.args && t == Fn(a[0], t.args);
    }
  }

  lemma {:induction false} ArgsAccepted(before: seq<Tree>, args: seq<Tree>, a: seq<string>, rest: seq<string>)
    requires AreArgs(args, a) && rest != [] && rest[0] == ")"
    ensures ParseArgs(before, a + rest) == GoodArgs(before + args, rest)
    decreases |a|, 5
  {
    hide IsExpr, ParseExpr;
    if |args| == 1 && IsExpr(args[0], a) {
      ExprAccepted(args[0], a, rest);
      assert before + args == before + [args[0]];
    } else {
      var i: nat :| i < |a| && IsListed(args, a, i);
      var more := [","] + (a[i + 1..] + rest);
      assert a + rest == a[..i] + more && more[1..] == a[i + 1..] + rest;
      ExprAccepted(args[0], a[..i], more);
      ArgsAccepted(before + [args[0]], args[1..], a[i + 1..], rest);
      assert before + args == before + [args[0]] + args[1..];
    }
  }

  // ----- what is accepted is in the language

  lemma {:induction false} ExprRead(ts: seq<string>) returns (a: seq<string>)
    requires ParseExpr(ts).Good?
    ensures ts == a + ParseExpr(ts).rest && IsExpr(ParseExpr(ts).tree, a)
    decreases |ts|, 4
  {
    hide ParseTerm, ExprLoop, IsTerm;
    var first := TermRead(ts);
    a := SumRead(ParseTerm(ts).tree, first, ParseTerm(ts).rest);
  }

  /** What a loop reads on from a sum so far. */
  lemma {:induction false} SumRead(l: Tree, before: seq<string>, ts: seq<string>) returns (a: seq<string>)
    requires IsExpr(l, before) && ExprLoop(l, ts).Good?
    ensures before + ts == a + ExprLoop(l, ts).rest && IsExpr(ExprLoop(l, ts).tree, a)
    decreases |ts|, 0
  {
    a := before;
    if ts != [] && Additive(ts[0]) {
      hide ParseTerm, IsExpr, IsTerm;
      var r, rest := ParseTerm(ts[1..]).tree, ParseTerm(ts[1..]).rest;
      var more := TermRead(ts[1..]);
      var sum := before + [ts[0]] + more;
      SumJoins(l, before, ts[0], r, more);
      a := SumRead(Bin(ts[0], l, r), sum, rest);
      assert before + ts == before + ([ts[0]] + ts[1..]) == sum + rest;
    }
  }

  lemma SumJoins(l: Tree, a: seq<string>, op: string, r: Tree, b: seq<string>)
    requires IsExpr(l, a) && Additive(op) && IsTerm(r, b)
    ensures IsExpr(Bin(op, l, r), a + [op] + b)
  {
    var ts := a + [op] + b;
    assert ts[..|a|] == a && ts[|a| + 1..] == b && ts[|a|] == op;
    assert IsSum(Bin(op, l, r), ts, |a|);
    hide IsSum, IsTerm;
  }

  lemma {:induction false} TermRead(ts: seq<string>) returns (a: seq<string>)
    requires ParseTerm(ts).Good?
    ensures ts == a + ParseTerm(ts).rest && IsTerm(ParseTerm(ts).tree, a)
    decreases |ts|, 3
  {
    hide ParseUnary, TermLoop, IsUnary;
    var first := UnaryRead(ts);
    a := ProductRead(ParseUnary(ts).tree, first, ParseUnary(ts).rest);
  }

  lemma {:induction false} ProductRead(l: Tree, before: seq<string>, ts: seq<string>) returns (a: seq<string>)
    requires IsTerm(l, before) && TermLoop(l, ts).Good?
    ensures before + ts == a + TermLoop(l, ts).rest && IsTerm(TermLoop(l, ts).tree, a)
    decreases |ts|, 0
  {
    a := before;
    if ts != [] && Multiplicative(ts[0]) {
      hide ParseUnary, IsTerm, IsUnary;
      var r, rest := ParseUnary(ts[1..]).tree, ParseUnary(ts[1..]).rest;
      var more := UnaryRead(ts[1..]);
      var product := before + [ts[0]] + more;
      ProductJoins(l, before, ts[0], r, more);
      a := ProductRead(Bin(ts[0], l, r), product, rest);
      assert before + ts == before + ([ts[0]] + ts[1..]) == product + rest;
    }
  }

  lemma ProductJoins(l: Tree, a: seq<string>, op: string, r: Tree, b: seq<string>)
    requires IsTerm(l, a) && Multiplicative(op) && IsUnary(r, b)
    ensures IsTerm(Bin(op, l, r), a + [op] + b)
  {
    var ts := a + [op] + b;
    assert ts[..|a|] == a && ts[|a| + 1..] == b && ts[|a|] == op;
    assert IsProduct(Bin(op, l, r), ts, |a|);
    hide IsProduct, IsUnary;
  }

  lemma {:induction false} UnaryRead(ts: seq<string>) returns (a: seq<string>)
    requires ParseUnary(ts).Good?
    ensures ts == a + ParseUnary(ts).rest && IsUnary(ParseUnary(ts).tree, a)
    decreases |ts|, 2
  {
    hide ParsePrimary, IsPrimary;
    if ts != [] && Additive(ts[0]) {
      var more := UnaryRead(ts[1..]);
      a := [ts[0]] + more;
      assert a[1..] == more && a[0] == ts[0];
    } else {
      a := PrimaryRead(ts);
    }
  }

  lemma {:induction false} PrimaryRead(ts: seq<string>) returns (a: seq<string>)
    requires ParsePrimary(ts).Good?
    ensures ts == a + ParsePrimary(ts).rest && IsPrimary(ParsePrimary(ts).tree, a)
    decreases |ts|, 1
  {
    hide ParseExpr, ParseArgs, IsExpr, AreArgs, KnownFunction, NumberStart, NameStart;
    if ts[0] == "(" {
      var inner := ExprRead(ts[1..]);
      a := ["("] + inner + [")"];
      assert a[1..|a| - 1] == inner;
      InnerNotEmpty(ParseExpr(ts[1..]).tree, inner);
      assert ts == [ts[0]] + ts[1..];
    } else if NumberStart(ts[0]) || !(|ts| > 1 && ts[1] == "(") {
      a := [ts[0]];
      assert ts == [ts[0]] + ts[1..];
    } else {
      var inner := ArgsRead([], ts[2..]);
      a := [ts[0], "("] + inner + [")"];
      assert a[2..|a| - 1] == inner;
      assert ts == [ts[0], "("] + ts[2..];
      assert ParseArgs([], ts[2..]).args[0..] == ParseArgs([], ts[2..]).args;
    }
  }

  lemma InnerNotEmpty(t: Tree, ts: seq<string>)
    requires IsExpr(t, ts)
    ensures ts != []
  {
    assert !IsPrimary(t, []);
    assert !IsUnary(t, []);
    assert !IsTerm(t, []);
  }

  lemma {:induction false} ArgsRead(before: seq<Tree>, ts: seq<string>) returns (a: seq<string>)
    requires ParseArgs(before, ts).GoodArgs?
    ensures ts == a + ParseArgs(before, ts).rest && a != []
    ensures |before| < |ParseArgs(before, ts).args| && before == ParseArgs(before, ts).args[..|before|]
    ensures AreArgs(ParseArgs(before, ts).args[|before|..], a)
    decreases |ts|, 5
  {
    hide ParseExpr, IsExpr;
    var arg, rest := ParseExpr(ts).tree, ParseExpr(ts).rest;
    a := ExprRead(ts);
    InnerNotEmpty(arg, a);
    if rest != [] && rest[0] == "," {
      var more := ArgsRead(before + [arg], rest[1..]);
      var args := ParseArgs(before, ts).args;
      assert args == ParseArgs(before + [arg], rest[1..]).args;
      assert args[..|before| + 1] == before + [arg];
      ArgsJoin(args[|before|..], a, more);
      assert rest == [","] + rest[1..];
      a := a + [","] + more;
    } else {
      assert (before + [arg])[|before|..] == [arg];
    }
  }

  lemma ArgsJoin(args: seq<Tree>, a: seq<string>, b: seq<string>)
    requires |args| > 1 && IsExpr(args[0], a) && AreArgs(args[1..], b)
    ensures AreArgs(args, a + [","] + b)
  {
    var ts := a + [","] + b;
    assert ts[..|a|] == a && ts[|a| + 1..] == b;
    assert IsListed(args, ts, |a|);
    hide IsListed, IsExpr;
  }

  // ----- the theorems

  /** The parser accepts exactly the language, with its trees; so each token list writes one tree at most. */
  lemma AcceptsExactly(ts: seq<string>, t: Tree)
    ensures ParseAll(ts) == Right(t) <==> IsExpr(t, ts)
  {
    hide ParseExpr, IsExpr;
    if IsExpr(t, ts) {
      ExprAccepted(t, ts, []);
      assert ts + [] == ts;
    }
    if ParseAll(ts) == Right(t) {
      var a := ExprRead(ts);
      assert a + [] == a;
    }
  }

  /** Brackets around a whole source change nothing. */
  lemma BracketsChangeNothing(ts: seq<string>, t: Tree)
    ensures ParseAll(ts) == Right(t) ==> ParseAll(["("] + ts + [")"]) == Right(t)
  {
    if ParseAll(ts) == Right(t) {
      AcceptsExactly(ts, t);
      InnerNotEmpty(t, ts);
      var wrapped := ["("] + ts + [")"];
      assert wrapped[1..|wrapped| - 1] == ts;
      assert IsPrimary(t, wrapped);
      hide IsPrimary, ParseAll;
      assert IsUnary(t, wrapped);
      assert IsTerm(t, wrapped);
      AcceptsExactly(wrapped, t);
    }
  }
}
