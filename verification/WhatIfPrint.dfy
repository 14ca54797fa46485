/** Printing what-if trees with as few brackets as their shape allows, and reading them back. */
module WhatIfPrint {
  import opened WhatIfTokens
  import opened WhatIfGrammar
  import opened Whitespace

  /** How tightly a tree has to hold together where it is printed. */
  datatype Level = Expr | Term | Unary

  /** A tree that a unary sign can write. */
  predicate Signed(t: Tree) {
    t.Bin? && Additive(t.op) && t.l == Num("0")
  }

  /** The printed form needs brackets around it. */
  predicate Bracketed(t: Tree, level: Level) {
    match level
    case Expr => false
    case Term => t.Bin? && Additive(t.op) && !Signed(t)
    case Unary => t.Bin? && !Signed(t)
  }

  function Print(t: Tree, level: Level): seq<string>
    decreases t, Rank(t, level)
  {
    match t
    case Num(text) => [text]
    case Ref(name) => [name]
    case Fn(fn, args) => [fn, "("] + PrintArgs(args) + [")"]
    case Bin(op, l, r) =>
      if Bracketed(t, level) then ["("] + Print(t, Expr) + [")"]
      else if !Additive(op) then Print(l, Term) + [op] + Print(r, Unary)
      else if level == Expr then Print(l, Expr) + [op] + Print(r, Term)
      else [op] + Print(r, Unary)
  }

  function PrintArgs(args: seq<Tree>): seq<string>
    decreases args, 4
  {
    if args == [] then []
    else if |args| == 1 then Print(args[0], Expr)
    else Print(args[0], Expr) + [","] + PrintArgs(args[1..])
  }

  /** Orders the forms one tree is printed and read in. */
  function Rank(t: Tree, level: Level): nat {
    if t.Bin? && Additive(t.op) then match level { case Expr => 0 case Unary => 1 case Term => 2 }
    else if t.Bin? then match level { case Term => 0 case Expr => 1 case Unary => 2 }
    else match level { case Unary => 0 case Term => 1 case Expr => 2 }
  }

  // ----- reading back

  predicate Stops(rest: seq<string>, level: Level) {
    rest == [] || (rest[0] != "(" && (level == Expr ==> !Multiplicative(rest[0])))
  }

  /** Reading a printed tree at its level yields the tree, and goes on with what follows. */
  ghost predicate ReadsAs(t: Tree, level: Level, rest: seq<string>) {
    match level
    case Expr => ParseExpr(Print(t, Expr) + rest) == ExprLoop(t, rest)
    case Term => ParseTerm(Print(t, Term) + rest) == TermLoop(t, rest)
    case Unary => ParseUnary(Print(t, Unary) + rest) == Good(t, rest)
  }

  lemma {:induction false} Reads(t: Tree, level: Level, rest: seq<string>)
    requires WellFormed(t) && Stops(rest, level)
    ensures ReadsAs(t, level, rest)
    decreases t, Rank(t, level)
  {
    hide IsToken, NumberStart, NameStart, KnownFunction;
    if Bracketed(t, level) {
      Reads(t, Expr, [")"] + rest);
      BracketsRead(t, level, rest);
    } else if level == Expr && t.Bin? && Additive(t.op) {
      Reads(t.r, Term, rest);
      Reads(t.l, Expr, [t.op] + Print(t.r, Term) + rest);
      SumReads(t, rest);
    } else if level == Expr {
      Reads(t, Term, rest);
      TermIsExpr(t, rest);
    } else if level == Term && t.Bin? && !Additive(t.op) {
      Reads(t.r, Unary, rest);
      Reads(t.l, Term, [t.op] + Print(t.r, Unary) + rest);
      ProductReads(t, rest);
    } else if level == Term {
      Reads(t, Unary, rest);
      UnaryIsTerm(t, rest);
    } else if t.Bin? {
      Reads(t.r, Unary, rest);
      SignReads(t, rest);
    } else if t.Fn? {
      ArgsRead([], t.args, [")"] + rest);
      CallReads(t, rest);
    } else {
      AtomReads(t, rest);
    }
  }

  /** Reading printed arguments yields them. */
  lemma {:induction false} ArgsRead(before: seq<Tree>, args: seq<Tree>, rest: seq<string>)
    requires args != [] && (forall i :: 0 <= i < |args| ==> WellFormed(args[i])) && rest != [] && rest[0] == ")"
    ensures ParseArgs(before, PrintArgs(args) + rest) == GoodArgs(before + args, rest)
    decreases args, 4
  {
    hide WellFormed, ParseExpr;
    assert before + args == before + [args[0]] + args[1..];
    if |args| == 1 {
      Reads(args[0], Expr, rest);
    } else {
      var more := [","] + (PrintArgs(args[1..]) + rest);
      assert PrintArgs(args) + rest == Print(args[0], Expr) + more;
      assert more[1..] == PrintArgs(args[1..]) + rest;
      Reads(args[0], Expr, more);
      ArgsRead(before + [args[0]], args[1..], rest);
    }
  }

  lemma BracketsRead(t: Tree, level: Level, rest: seq<string>)
    requires Bracketed(t, level) && Stops(rest, level) && ReadsAs(t, Expr, [")"] + rest)
    ensures ReadsAs(t, level, rest)
  {
    hide NumberStart, NameStart, ParseArgs;
    var inner := Print(t, Expr) + ([")"] + rest);
    var ts := Print(t, level) + rest;
    assert ts == ["("] + inner && ts[1..] == inner;
    hide Print, ParseExpr;
    assert ([")"] + rest)[1..] == rest;
    assert ParseUnary(ts) == ParsePrimary(ts);
  }

  lemma SumReads(t: Tree, rest: seq<string>)
    requires t.Bin? && Additive(t.op) && Stops(rest, Expr)
    requires ReadsAs(t.l, Expr, [t.op] + Print(t.r, Term) + rest) && ReadsAs(t.r, Term, rest)
    ensures ReadsAs(t, Expr, rest)
  {
    var more := [t.op] + Print(t.r, Term) + rest;
    assert Print(t, Expr) + rest == Print(t.l, Expr) + more;
    assert more[1..] == Print(t.r, Term) + rest;
    hide Print, ParseExpr, ParseTerm;
  }

  lemma ProductReads(t: Tree, rest: seq<string>)
    requires t.Bin? && Multiplicative(t.op) && ReadsAs(t.l, Term, [t.op] + Print(t.r, Unary) + rest) && ReadsAs(t.r, Unary, rest)
    ensures ReadsAs(t, Term, rest)
  {
    var more := [t.op] + Print(t.r, Unary) + rest;
    assert Print(t, Term) + rest == Print(t.l, Term) + more;
    assert more[1..] == Print(t.r, Unary) + rest;
    hide Print, ParseTerm, ParseUnary;
  }

  lemma SignReads(t: Tree, rest: seq<string>)
    requires Signed(t) && ReadsAs(t.r, Unary, rest)
    ensures ReadsAs(t, Unary, rest)
  {
    var ts := Print(t, Unary) + rest;
    assert ts == [t.op] + (Print(t.r, Unary) + rest) && ts[1..] == Print(t.r, Unary) + rest;
    hide Print, ParsePrimary;
  }

  lemma TermIsExpr(t: Tree, rest: seq<string>)
    requires !(t.Bin? && Additive(t.op)) && Stops(rest, Expr) && ReadsAs(t, Term, rest)
    ensures ReadsAs(t, Expr, rest)
  {
    assert Print(t, Expr) == Print(t, Term);
    hide Print, ParseTerm;
  }

  lemma UnaryIsTerm(t: Tree, rest: seq<string>)
    requires !(t.Bin? && !Signed(t)) && ReadsAs(t, Unary, rest)
    ensures ReadsAs(t, Term, rest)
  {
    assert Print(t, Term) == Print(t, Unary);
    hide Print, ParseUnary;
  }

  lemma CallReads(t: Tree, rest: seq<string>)
    requires t.Fn? && WellFormed(t) && ParseArgs([], PrintArgs(t.args) + ([")"] + rest)) == GoodArgs([] + t.args, [")"] + rest)
    ensures ReadsAs(t, Unary, rest)
  {
    var ts := Print(t, Unary) + rest;
    assert ts == [t.fn, "("] + (PrintArgs(t.args) + ([")"] + rest));
    assert ts[2..] == PrintArgs(t.args) + ([")"] + rest);
    assert [] + t.args == t.args && ([")"] + rest)[1..] == rest;
    FunctionIsName(t.fn);
    hide ParseArgs, ParseExpr, KnownFunction, NumberStart, NameStart, PrintArgs, Print, WellFormed, Additive;
    assert ParseUnary(ts) == ParsePrimary(ts);
  }

  lemma FunctionIsName(name: string)
    requires KnownFunction(name)
    ensures NameStart(name) && !NumberStart(name) && !Additive(name) && name != "("
  {
  }

  lemma AtomReads(t: Tree, rest: seq<string>)
    requires (t.Num? || t.Ref?) && WellFormed(t) && Stops(rest, Unary)
    ensures ReadsAs(t, Unary, rest)
  {
    var ts := Print(t, Unary) + rest;
    assert ts[1..] == rest && ts[0] == Print(t, Unary)[0];
    hide ParseArgs, ParseExpr, IsToken;
    assert ParseUnary(ts) == ParsePrimary(ts);
  }

  // ----- what is printed is tokens, with no two words side by side

  predicate Word(x: string) {
    x != "" && Wordy(x[0])
  }

  /** Tokens only; a word is never next to a word; and a tree starts and ends as `first` and `last` say. */
  predicate Printable(ts: seq<string>) {
    && (forall i :: 0 <= i < |ts| ==> IsToken(ts[i]))
    && (forall i :: 0 < i < |ts| ==> !(Word(ts[i - 1]) && Word(ts[i])))
  }

  predicate Punctuation(x: string) {
    x in {"+", "-", "*", "/", "(", ")", ","}
  }

  lemma PunctuationIsToken(x: string)
    requires Punctuation(x)
    ensures IsToken(x) && !Word(x)
  {
  }

  lemma Glued(a: seq<string>, x: string, b: seq<string>)
    requires Printable(a) && Printable(b) && Punctuation(x)
    ensures Printable(a + [x] + b)
  {
    PunctuationIsToken(x);
    hide IsToken, Word, Punctuation;
    var ts := a + [x] + b;
    forall i | 0 < i < |ts|
      ensures !(Word(ts[i - 1]) && Word(ts[i]))
    {
      if i < |a| {
        assert ts[i - 1] == a[i - 1] && ts[i] == a[i];
      } else if i > |a| + 1 {
        assert ts[i - 1] == b[i - |a| - 2] && ts[i] == b[i - |a| - 1];
      }
    }
  }

  lemma FunctionIsToken(name: string)
    requires KnownFunction(name)
    ensures IsToken(name)
  {
    hide Space, Digit;
    AllNameChars(name);
    hide KnownFunction;
    assert Run(Name, name) == |name| by { NameRuns(name); }
    NameNotNumber(name);
  }

  predicate AllLetters(name: string) {
    name != "" && forall i :: 0 <= i < |name| ==> Letter(name[i])
  }

  lemma AllNameChars(name: string)
    requires KnownFunction(name)
    ensures AllLetters(name)
  {
    hide AllLetters;
    if name in DUNDERS {
      DunderChars(name);
    } else if name in {"hasOwnProperty", "isPrototypeOf", "propertyIsEnumerable", "toLocaleString"} {
      LongChars(name);
    } else {
      ShortChars(name);
    }
  }

  lemma LongChars(name: string)
    requires name in {"hasOwnProperty", "isPrototypeOf", "propertyIsEnumerable", "toLocaleString"}
    ensures AllLetters(name)
  {
  }

  lemma ShortChars(name: string)
    requires name in {"min", "max", "constructor", "toString", "valueOf"}
    ensures AllLetters(name)
  {
  }

  lemma DunderChars(name: string)
    requires name in DUNDERS
    ensures AllLetters(name)
  {
  }

  lemma {:induction false} NameRuns(name: string)
    requires forall i :: 0 <= i < |name| ==> Letter(name[i])
    ensures Run(Name, name) == |name|
  {
    hide Letter;
    if name != "" {
      NameRuns(name[1..]);
    }
  }

  lemma NameNotNumber(name: string)
    requires name != "" && Letter(name[0])
    ensures Run(Number, name) == 0 && !FractionAt(name, 0) && !Space(name[0])
  {
    if Space(name[0]) { SpaceIsNothingElse(name[0]); }
  }

  lemma TokenPrints(x: string)
    requires IsToken(x)
    ensures Printable([x])
  {
    hide IsToken;
  }

  lemma {:induction false} PrintsTokens(t: Tree, level: Level)
    requires WellFormed(t)
    ensures Printable(Print(t, level))
    decreases t, Rank(t, level)
  {
    hide IsToken, NumberStart, NameStart, KnownFunction, Printable;
    EmptyPrints();
    if t.Num? || t.Ref? {
      TokenPrints(Print(t, level)[0]);
    } else if t.Fn? {
      ArgsPrintTokens(t.args);
      FunctionIsToken(t.fn);
      TokenPrints(t.fn);
      Glued([t.fn], "(", PrintArgs(t.args));
      assert [t.fn] + ["("] + PrintArgs(t.args) == [t.fn, "("] + PrintArgs(t.args);
      Glued([t.fn, "("] + PrintArgs(t.args), ")", []);
      assert Print(t, level) == [t.fn, "("] + PrintArgs(t.args) + [")"] + [];
    } else if Bracketed(t, level) {
      PrintsTokens(t, Expr);
      Glued([], "(", Print(t, Expr));
      assert [] + ["("] + Print(t, Expr) == ["("] + Print(t, Expr);
      Glued(["("] + Print(t, Expr), ")", []);
      assert Print(t, level) == ["("] + Print(t, Expr) + [")"] + [];
    } else if !Additive(t.op) {
      PrintsTokens(t.l, Term);
      PrintsTokens(t.r, Unary);
      Glued(Print(t.l, Term), t.op, Print(t.r, Unary));
    } else if level == Expr {
      PrintsTokens(t.l, Expr);
      PrintsTokens(t.r, Term);
      Glued(Print(t.l, Expr), t.op, Print(t.r, Term));
    } else {
      PrintsTokens(t.r, Unary);
      Glued([], t.op, Print(t.r, Unary));
      assert [] + [t.op] + Print(t.r, Unary) == Print(t, level);
    }
  }

  lemma EmptyPrints()
    ensures Printable([])
  {
  }

  lemma {:induction false} ArgsPrintTokens(args: seq<Tree>)
    requires forall i :: 0 <= i < |args| ==> WellFormed(args[i])
    ensures Printable(PrintArgs(args))
    decreases args, 4
  {
    hide WellFormed, Printable;
    EmptyPrints();
    if args != [] {
      PrintsTokens(args[0], Expr);
      if |args| > 1 {
        ArgsPrintTokens(args[1..]);
        Glued(Print(args[0], Expr), ",", PrintArgs(args[1..]));
      }
    }
  }

  // ----- the theorems

  /** Blank or no gaps between the tokens of a printed tree. */
  predicate AnyGaps(tokens: seq<string>, gaps: seq<string>) {
    |gaps| == |tokens| + 1 && forall i :: 0 <= i < |gaps| ==> BlankOrNone(gaps[i])
  }

  /** A printed tree, spaced in any way, reads back as that tree. */
  lemma RoundTrip(t: Tree, gaps: seq<string>)
    requires WellFormed(t) && AnyGaps(Print(t, Expr), gaps)
    ensures Read(Spaced(Print(t, Expr), gaps)) == Right(t)
  {
    hide Print, ParseExpr, BlankOrNone, Scan, Spaced, WellFormed;
    var ts := Print(t, Expr);
    PrintsTokens(t, Expr);
    ApartFits(ts, gaps);
    ScanSpaced(ts, gaps);
    Reads(t, Expr, []);
    assert ts + [] == ts;
  }

  lemma ApartFits(ts: seq<string>, gaps: seq<string>)
    requires Printable(ts) && AnyGaps(ts, gaps)
    ensures GapsFit(ts, gaps)
  {
    hide IsToken, BlankOrNone;
    forall i | 0 < i < |ts|
      ensures !Clash(ts[i - 1], ts[i])
    {
      assert !(Word(ts[i - 1]) && Word(ts[i]));
    }
  }
}
