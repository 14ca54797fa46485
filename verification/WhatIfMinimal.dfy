/** Printing brackets no more than any source that reads as the same tree, and settles it. */
module WhatIfMinimal {
  import opened WhatIfTokens
  import opened WhatIfGrammar
  import opened WhatIfPrint

  /** How many opening brackets a token list has. */
  function Opens(ts: seq<string>): nat {
    if ts == [] then 0 else (if ts[0] == "(" then 1 else 0) + Opens(ts[1..])
  }

  lemma {:induction false} OpensAdd(a: seq<string>, b: seq<string>)
    ensures Opens(a + b) == Opens(a) + Opens(b)
  {
    if a == [] {
      assert a + b == b;
    } else {
      assert (a + b)[1..] == a[1..] + b;
      OpensAdd(a[1..], b);
    }
  }

  lemma OpensAround(a: seq<string>, x: string, b: seq<string>)
    ensures Opens(a + [x] + b) == Opens(a) + Opens([x]) + Opens(b)
  {
    OpensAdd(a + [x], b);
    OpensAdd(a, [x]);
  }

  lemma OpensHead(ts: seq<string>)
    requires ts != []
    ensures Opens(ts) == (if ts[0] == "(" then 1 else 0) + Opens(ts[1..])
    ensures Opens([ts[0]]) == if ts[0] == "(" then 1 else 0
  {
    assert [ts[0]][1..] == [];
  }

  /** Brackets of one tree, in the three places it can stand. */
  function Brackets(t: Tree, level: Level): nat {
    Opens(Print(t, level))
  }

  lemma BracketsOfBin(t: Tree, level: Level)
    requires t.Bin? && (Additive(t.op) || Multiplicative(t.op))
    ensures Bracketed(t, level) ==> Brackets(t, level) == 1 + Brackets(t, Expr)
    ensures !Bracketed(t, level) && !Additive(t.op) ==> Brackets(t, level) == Brackets(t.l, Term) + Brackets(t.r, Unary)
    ensures Additive(t.op) ==> Brackets(t, Expr) == Brackets(t.l, Expr) + Brackets(t.r, Term)
    ensures Signed(t) && level != Expr ==> Brackets(t, level) == Brackets(t.r, Unary)
  {
    OpensHead([t.op]);
    OpensHead(["("]);
    OpensHead([")"]);
    if Bracketed(t, level) {
      OpensAround([], "(", Print(t, Expr));
      OpensAdd(["("] + Print(t, Expr), [")"]);
      assert [] + ["("] + Print(t, Expr) == ["("] + Print(t, Expr);
    } else if !Additive(t.op) {
      OpensAround(Print(t.l, Term), t.op, Print(t.r, Unary));
    } else if level != Expr {
      OpensAdd([t.op], Print(t.r, Unary));
    }
    if Additive(t.op) {
      OpensAround(Print(t.l, Expr), t.op, Print(t.r, Term));
    }
  }

  /** The tighter the place, the more brackets, and never more than one pair more. */
  lemma {:induction false} LevelsNest(t: Tree)
    requires WellFormed(t)
    ensures Brackets(t, Expr) <= Brackets(t, Term) <= Brackets(t, Unary) <= Brackets(t, Expr) + 1
  {
    hide IsToken, NumberStart, NameStart, KnownFunction, Brackets;
    if t.Bin? {
      BracketsOfBin(t, Expr);
      BracketsOfBin(t, Term);
      BracketsOfBin(t, Unary);
      LevelsNest(t.r);
      if Signed(t) { BracketsOfZero(); }
    } else {
      SamePrint(t);
    }
  }

  lemma SamePrint(t: Tree)
    requires !t.Bin?
    ensures Brackets(t, Expr) == Brackets(t, Term) == Brackets(t, Unary)
  {
    assert Print(t, Expr) == Print(t, Term) == Print(t, Unary);
  }

  lemma BracketsOfZero()
    ensures Brackets(Num("0"), Expr) == 0 && WellFormed(Num("0"))
  {
    OpensHead(["0"]);
    assert "0"[1..] == "";
  }

  // ----- along the parse

  /** `t` was read off the front of `ts`, and prints with no more brackets than were read. */
  predicate Thrifty(ts: seq<string>, t: Tree, rest: seq<string>, level: Level, before: nat) {
    WellFormed(t) && AllTokens(rest) && Brackets(t, level) + Opens(rest) <= before + Opens(ts)
  }

  lemma TailTokens(ts: seq<string>)
    requires AllTokens(ts) && ts != []
    ensures AllTokens(ts[1..]) && IsToken(ts[0])
  {
    hide IsToken;
  }

  lemma {:induction false} ExprThrifty(ts: seq<string>)
    requires AllTokens(ts)
    ensures ParseExpr(ts).Good? ==> Thrifty(ts, ParseExpr(ts).tree, ParseExpr(ts).rest, Expr, 0)
    decreases |ts|, 4
  {
    hide AllTokens, WellFormed, Brackets, ExprLoop, ParseTerm;
    TermThrifty(ts);
    if ParseTerm(ts).Good? {
      LevelsNest(ParseTerm(ts).tree);
      ExprLoopThrifty(ParseTerm(ts).tree, ParseTerm(ts).rest);
    }
  }

  lemma {:induction false} ExprLoopThrifty(l: Tree, ts: seq<string>)
    requires AllTokens(ts) && WellFormed(l)
    ensures ExprLoop(l, ts).Good? ==> Thrifty(ts, ExprLoop(l, ts).tree, ExprLoop(l, ts).rest, Expr, Brackets(l, Expr))
    decreases |ts|, 0
  {
    hide AllTokens, Brackets, ParseTerm, IsToken;
    if ts != [] && Additive(ts[0]) {
      TailTokens(ts);
      OpensHead(ts);
      TermThrifty(ts[1..]);
      if ParseTerm(ts[1..]).Good? {
        var t := Bin(ts[0], l, ParseTerm(ts[1..]).tree);
        BracketsOfBin(t, Expr);
        ExprLoopThrifty(t, ParseTerm(ts[1..]).rest);
      }
    }
  }

  lemma {:induction false} TermThrifty(ts: seq<string>)
    requires AllTokens(ts)
    ensures ParseTerm(ts).Good? ==> Thrifty(ts, ParseTerm(ts).tree, ParseTerm(ts).rest, Term, 0)
    decreases |ts|, 3
  {
    hide AllTokens, WellFormed, Brackets, TermLoop, ParseUnary;
    UnaryThrifty(ts);
    if ParseUnary(ts).Good? {
      LevelsNest(ParseUnary(ts).tree);
      TermLoopThrifty(ParseUnary(ts).tree, ParseUnary(ts).rest);
    }
  }

  lemma {:induction false} TermLoopThrifty(l: Tree, ts: seq<string>)
    requires AllTokens(ts) && WellFormed(l)
    ensures TermLoop(l, ts).Good? ==> Thrifty(ts, TermLoop(l, ts).tree, TermLoop(l, ts).rest, Term, Brackets(l, Term))
    decreases |ts|, 0
  {
    hide AllTokens, Brackets, ParseUnary, IsToken;
    if ts != [] && Multiplicative(ts[0]) {
      TailTokens(ts);
      OpensHead(ts);
      UnaryThrifty(ts[1..]);
      if ParseUnary(ts[1..]).Good? {
        var t := Bin(ts[0], l, ParseUnary(ts[1..]).tree);
        BracketsOfBin(t, Term);
        TermLoopThrifty(t, ParseUnary(ts[1..]).rest);
      }
    }
  }

  lemma {:induction false} UnaryThrifty(ts: seq<string>)
    requires AllTokens(ts)
    ensures ParseUnary(ts).Good? ==> Thrifty(ts, ParseUnary(ts).tree, ParseUnary(ts).rest, Unary, 0)
    decreases |ts|, 2
  {
    hide AllTokens, Brackets, ParsePrimary, IsToken;
    if ts != [] && Additive(ts[0]) {
      TailTokens(ts);
      OpensHead(ts);
      UnaryThrifty(ts[1..]);
      if ParseUnary(ts[1..]).Good? {
        BracketsOfBin(Bin(ts[0], Num("0"), ParseUnary(ts[1..]).tree), Unary);
        BracketsOfZero();
      }
    } else {
      PrimaryThrifty(ts);
    }
  }

  lemma {:induction false} PrimaryThrifty(ts: seq<string>)
    requires AllTokens(ts)
    ensures ParsePrimary(ts).Good? ==> Thrifty(ts, ParsePrimary(ts).tree, ParsePrimary(ts).rest, Unary, 0)
    decreases |ts|, 1
  {
    hide AllTokens, Brackets, ParseExpr, ParseArgs, NumberStart, NameStart, KnownFunction;
    if ts != [] {
      TailTokens(ts);
      OpensHead(ts);
      if ts[0] == "(" {
        ExprThrifty(ts[1..]);
        if ParsePrimary(ts).Good? {
          var inner := ParseExpr(ts[1..]);
          LevelsNest(inner.tree);
          TailTokens(inner.rest);
          OpensHead(inner.rest);
        }
      } else if NumberStart(ts[0]) {
        AtomBrackets(Num(ts[0]), ts[0]);
      } else if NameStart(ts[0]) && !(|ts| > 1 && ts[1] == "(") {
        AtomBrackets(Ref(ts[0]), ts[0]);
      } else if NameStart(ts[0]) {
        CallThrifty(ts);
      }
    }
  }

  lemma AtomBrackets(t: Tree, x: string)
    requires t == Num(x) || t == Ref(x)
    ensures Brackets(t, Unary) == Opens([x])
  {
  }

  lemma {:induction false} CallThrifty(ts: seq<string>)
    requires AllTokens(ts) && |ts| > 1 && ts[1] == "(" && NameStart(ts[0])
    ensures var p := ParseArgs([], ts[2..]);
      p.GoodArgs? && Called(ts[0], p.args, p.rest).Good? ==>
        Thrifty(ts, Called(ts[0], p.args, p.rest).tree, Called(ts[0], p.args, p.rest).rest, Unary, 0)
    decreases |ts|, 0
  {
    hide AllTokens, Brackets, ParseArgs, KnownFunction, IsToken;
    TailTokens(ts);
    TailTokens(ts[1..]);
    OpensHead(ts);
    OpensHead(ts[1..]);
    assert ts[1..][1..] == ts[2..];
    ArgsThrifty([], ts[2..]);
    var p := ParseArgs([], ts[2..]);
    if p.GoodArgs? && Called(ts[0], p.args, p.rest).Good? {
      CallBrackets(ts[0], p.args);
      TailTokens(p.rest);
      OpensHead(p.rest);
    }
  }

  lemma CallBrackets(name: string, args: seq<Tree>)
    requires NameStart(name)
    ensures Brackets(Fn(name, args), Unary) == 1 + Opens(PrintArgs(args))
  {
    hide PrintArgs;
    OpensHead([name]);
    OpensHead(["("]);
    OpensHead([")"]);
    OpensAdd([name], ["("]);
    assert [name] + ["("] == [name, "("];
    OpensAround([name, "("], ")", []);
    OpensAdd([name, "("], PrintArgs(args));
    OpensAdd([name, "("] + PrintArgs(args), [")"]);
  }

  lemma {:induction false} ArgsThrifty(before: seq<Tree>, ts: seq<string>)
    requires AllTokens(ts) && AllWellFormed(before)
    ensures var p := ParseArgs(before, ts);
      p.GoodArgs? ==> AllWellFormed(p.args) && AllTokens(p.rest)
                      && Opens(PrintArgs(p.args)) + Opens(p.rest) <= Opens(PrintArgs(before)) + Opens(ts)
    decreases |ts|, 5
  {
    hide AllTokens, Brackets, ParseExpr, WellFormed, Print;
    ExprThrifty(ts);
    var p := ParseExpr(ts);
    if p.Good? {
      ArgsGrow(before, p.tree);
      if p.rest != [] && p.rest[0] == "," {
        TailTokens(p.rest);
        OpensHead(p.rest);
        ArgsThrifty(before + [p.tree], p.rest[1..]);
      }
    }
  }

  lemma {:induction false} ArgsGrow(before: seq<Tree>, arg: Tree)
    ensures Opens(PrintArgs(before + [arg])) == Opens(PrintArgs(before)) + Brackets(arg, Expr)
  {
    hide Print;
    if before == [] {
      assert before + [arg] == [arg];
    } else if |before| == 1 {
      var b := before[0];
      assert before + [arg] == [b, arg] && [b, arg][1..] == [arg];
      OpensAround(Print(b, Expr), ",", Print(arg, Expr));
      OpensHead([","]);
    } else {
      assert (before + [arg])[1..] == before[1..] + [arg];
      ArgsGrow(before[1..], arg);
      OpensAround(Print(before[0], Expr), ",", PrintArgs(before[1..]));
      OpensAround(Print(before[0], Expr), ",", PrintArgs(before[1..] + [arg]));
    }
  }

  // ----- the theorems

  /** No source that reads as a tree has fewer brackets than the printed tree. */
  lemma FewestBrackets(ts: seq<string>)
    requires AllTokens(ts) && ParseAll(ts).Right?
    ensures WellFormed(ParseAll(ts).value) && Opens(Print(ParseAll(ts).value, Expr)) <= Opens(ts)
  {
    hide ParseExpr, WellFormed, AllTokens;
    ExprThrifty(ts);
  }

  lemma {:induction false} ScanFindsTokens(s: string)
    ensures Scan(s).Tokens? ==> AllTokens(Scan(s).tokens)
    decreases |s|
  {
    hide TokenLength, IsBlank, IsToken;
    if s != "" && TokenLength(s) > 0 {
      TokenIsWhole(s);
      ScanFindsTokens(s[TokenLength(s)..]);
    }
  }

  /** Whatever reads, reads the same once it is printed. */
  lemma PrintingSettles(src: string, gaps: seq<string>)
    requires Read(src).Right? && AnyGaps(Print(Read(src).value, Expr), gaps)
    ensures Read(Spaced(Print(Read(src).value, Expr), gaps)) == Read(src)
  {
    hide ParseAll, WellFormed, Scan, Print, Spaced, AnyGaps, AllTokens;
    ScanFindsTokens(src);
    FewestBrackets(Scan(src).tokens);
    RoundTrip(Read(src).value, gaps);
  }

  lemma InheritedExactly(name: string)
    ensures Inherited(name) <==>
      || name in {"constructor", "hasOwnProperty", "isPrototypeOf", "propertyIsEnumerable"}
      || name in {"toLocaleString", "toString", "valueOf", "__proto__"}
      || name in {"__defineGetter__", "__defineSetter__", "__lookupGetter__", "__lookupSetter__"}
  {
  }

  /**
   A call with enough arguments is accepted just when its name is min, max or a name every JavaScript
   object inherits: `toString(1, 2)` parses although no such function exists.
   */
  lemma CallsAccepted(name: string, args: seq<Tree>)
    requires NameStart(name) && |args| >= 2 && AllWellFormed(args)
    ensures var ts := [name, "("] + PrintArgs(args) + [")"];
      ParseAll(ts) ==
      if || name in {"min", "max", "constructor", "hasOwnProperty", "isPrototypeOf", "propertyIsEnumerable"}
         || name in {"toLocaleString", "toString", "valueOf", "__proto__"}
         || name in {"__defineGetter__", "__defineSetter__", "__lookupGetter__", "__lookupSetter__"}
      then Right(Fn(name, args)) else Wrong(UnknownFunction(name))
  {
    InheritedExactly(name);
    hide PrintArgs, ParseArgs, WellFormed, ParseAll, Inherited, NameStart;
    ArgsRead([], args, [")"]);
    CallSplit(name, PrintArgs(args));
    assert [] + args == args;
    CallPrimary([name, "("] + PrintArgs(args) + [")"], name, args);
  }

  lemma CallSplit(name: string, mid: seq<string>)
    ensures var ts := [name, "("] + mid + [")"]; ts[0] == name && ts[1] == "(" && ts[2..] == mid + [")"]
  {
  }

  lemma CallPrimary(ts: seq<string>, name: string, args: seq<Tree>)
    requires |ts| > 2 && ts[0] == name && ts[1] == "(" && NameStart(name) && |args| >= 2
    requires ParseArgs([], ts[2..]) == GoodArgs(args, [")"])
    ensures ParseAll(ts) == if name in {"min", "max"} || Inherited(name) then Right(Fn(name, args)) else Wrong(UnknownFunction(name))
  {
    NameIsPlain(name);
    hide ParseExpr, ParseArgs, NumberStart, NameStart, Inherited, Additive, ParseAll;
    assert ParsePrimary(ts) == Called(name, args, [")"]);
    assert ParseUnary(ts) == ParsePrimary(ts);
    CallAlone(ts);
  }

  lemma NameIsPlain(name: string)
    requires NameStart(name)
    ensures !NumberStart(name) && !Additive(name) && name != "("
  {
  }

  /** A unary with nothing after it is the whole expression. */
  lemma CallAlone(ts: seq<string>)
    requires ParseUnary(ts).Good? ==> ParseUnary(ts).rest == []
    ensures ParseAll(ts) == match ParseUnary(ts)
      case Bad(fault) => Wrong(fault)
      case Good(tree, rest) => Right(tree)
  {
    hide ParseUnary;
    if ParseUnary(ts).Good? {
      var t := ParseUnary(ts).tree;
      assert TermLoop(t, []) == Good(t, []);
      assert ExprLoop(t, []) == Good(t, []);
      assert ParseTerm(ts) == Good(t, []);
      assert ParseExpr(ts) == Good(t, []);
    } else {
      assert ParseTerm(ts) == ParseUnary(ts);
      assert ParseExpr(ts) == ParseUnary(ts);
    }
  }
}
