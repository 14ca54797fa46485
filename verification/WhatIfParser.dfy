/** whatifParse: the recursive-descent parser over a token list and a cursor. */
module WhatIfParser {
  import opened WhatIfTokens
  import opened WhatIfGrammar

  /** What the specification says of the tokens from the cursor on is what a method found. */
  predicate Agrees(p: Parsed, found: Outcome<Tree>, rest: seq<string>) {
    match p
    case Good(tree, left) => found == Right(tree) && rest == left
    case Bad(fault) => found == Wrong(fault)
  }

  predicate AgreesArgs(p: ParsedArgs, found: Outcome<seq<Tree>>, rest: seq<string>) {
    match p
    case GoodArgs(args, left) => found == Right(args) && rest == left
    case BadArgs(fault) => found == Wrong(fault)
  }

  class Parser {
    const t: seq<string>
    var p: nat

    constructor (tokens: seq<string>)
      ensures t == tokens && p == 0
    {
      t, p := tokens, 0;
    }

    predicate Valid()
      reads this
    {
      p <= |t|
    }

    function Left(): seq<string>
      reads this
      requires Valid()
    {
      t[p..]
    }

    method Expr() returns (found: Outcome<Tree>)
      requires Valid()
      modifies this`p
      ensures Valid() && p >= old(p) && Agrees(ParseExpr(old(Left())), found, Left())
      decreases |t| - p, 4
    {
      hide Additive, ParseTerm;
      ghost var start := Left();
      found := Term();
      if found.Wrong? { return; }
      var n := found.value;
      while p < |t| && Additive(t[p])
        invariant Valid() && p > old(p)
        invariant ParseExpr(start) == ExprLoop(n, Left())
        decreases |t| - p
      {
        var op := t[p];
        assert Left()[0] == op && Left()[1..] == t[p + 1..];
        p := p + 1;
        var r := Term();
        if r.Wrong? { return r; }
        n := Bin(op, n, r.value);
      }
      found := Right(n);
    }

    method Term() returns (found: Outcome<Tree>)
      requires Valid()
      modifies this`p
      ensures Valid() && p >= old(p) && Agrees(ParseTerm(old(Left())), found, Left())
      ensures found.Right? ==> p > old(p)
      decreases |t| - p, 3
    {
      hide Multiplicative, ParseUnary;
      ghost var start := Left();
      found := Unary();
      if found.Wrong? { return; }
      var n := found.value;
      while p < |t| && Multiplicative(t[p])
        invariant Valid() && p > old(p)
        invariant ParseTerm(start) == TermLoop(n, Left())
        decreases |t| - p
      {
        var op := t[p];
        assert Left()[0] == op && Left()[1..] == t[p + 1..];
        p := p + 1;
        var r := Unary();
        if r.Wrong? { return r; }
        n := Bin(op, n, r.value);
      }
      found := Right(n);
    }

    method Unary() returns (found: Outcome<Tree>)
      requires Valid()
      modifies this`p
      ensures Valid() && p >= old(p) && Agrees(ParseUnary(old(Left())), found, Left())
      ensures found.Right? ==> p > old(p)
      decreases |t| - p, 2
    {
      hide Additive, ParsePrimary;
      if p < |t| && Additive(t[p]) {
        var op := t[p];
        assert Left()[0] == op && Left()[1..] == t[p + 1..];
        p := p + 1;
        var r := Unary();
        if r.Wrong? { return r; }
        return Right(Bin(op, Num("0"), r.value));
      }
      found := Primary();
    }

    method Primary() returns (found: Outcome<Tree>)
      requires Valid()
      modifies this`p
      ensures Valid() && p >= old(p) && Agrees(ParsePrimary(old(Left())), found, Left())
      ensures found.Right? ==> p > old(p)
      decreases |t| - p, 1
    {
      hide NumberStart, NameStart, ParseExpr, ParseArgs, KnownFunction;
      if p == |t| { return Wrong(EndsEarly); }
      var x := t[p];
      assert Left()[0] == x && Left()[1..] == t[p + 1..];
      if x == "(" {
        p := p + 1;
        var n := Expr();
        if n.Wrong? { return n; }
        assert p < |t| ==> Left()[0] == t[p] && Left()[1..] == t[p + 1..];
        if p == |t| || t[p] != ")" { return Wrong(Expected(")")); }
        p := p + 1;
        return n;
      }
      if NumberStart(x) {
        p := p + 1;
        return Right(Num(x));
      }
      if NameStart(x) {
        p := p + 1;
        if p == |t| || t[p] != "(" { return Right(Ref(x)); }
        assert old(Left())[1] == "(" && old(Left())[2..] == t[p + 1..];
        p := p + 1;
        found := Call(x);
        return;
      }
      found := Wrong(Unexpected(x));
    }

    /** The arguments of `name`, after its opening bracket. */
    method Call(name: string) returns (found: Outcome<Tree>)
      requires Valid()
      modifies this`p
      ensures Valid() && p >= old(p)
      ensures match ParseArgs([], old(Left()))
        case BadArgs(fault) => found == Wrong(fault)
        case GoodArgs(args, rest) => Agrees(Called(name, args, rest), found, Left())
      decreases |t| - p, 6
    {
      hide KnownFunction, ParseExpr;
      var args := Arguments();
      if args.Wrong? { return Wrong(args.fault); }
      assert p < |t| ==> Left()[0] == t[p] && Left()[1..] == t[p + 1..];
      if p == |t| || t[p] != ")" { return Wrong(Expected(")")); }
      p := p + 1;
      if !KnownFunction(name) { return Wrong(UnknownFunction(name)); }
      if |args.value| < 2 { return Wrong(TooFewArguments(name)); }
      found := Right(Fn(name, args.value));
    }

    method Arguments() returns (found: Outcome<seq<Tree>>)
      requires Valid()
      modifies this`p
      ensures Valid() && p >= old(p)
      ensures AgreesArgs(ParseArgs([], old(Left())), found, Left())
      decreases |t| - p, 5
    {
      hide ParseExpr;
      ghost var start := Left();
      var arg := Expr();
      if arg.Wrong? { return Wrong(arg.fault); }
      var args := [arg.value];
      assert [] + [arg.value] == args;
      while p < |t| && t[p] == ","
        invariant Valid() && p > old(p)
        invariant ParseArgs([], start) == More(args, Left())
        decreases |t| - p
      {
        assert Left()[0] == "," && Left()[1..] == t[p + 1..];
        p := p + 1;
        arg := Expr();
        if arg.Wrong? { return Wrong(arg.fault); }
        args := args + [arg.value];
      }
      found := Right(args);
    }
  }

  /** The rest of an argument list, once `args` are read. */
  function More(args: seq<Tree>, ts: seq<string>): ParsedArgs {
    if ts != [] && ts[0] == "," then ParseArgs(args, ts[1..]) else GoodArgs(args, ts)
  }

  /** The whole parser: an expression, and nothing after it. */
  method WhatifParse(src: string) returns (found: Outcome<Tree>)
    ensures found == Read(src)
  {
    hide ParseExpr;
    var tokens, pieces := Tokenize(src);
    if tokens.Wrong? {
      return Wrong(tokens.fault);
    }
    var parser := new Parser(tokens.value);
    assert parser.Left() == tokens.value;
    found := parser.Expr();
    if found.Right? && parser.p != |parser.t| {
      assert parser.Left()[0] == parser.t[parser.p];
      found := Wrong(Unexpected(parser.t[parser.p]));
    }
  }
}
