/** The grammar of what-if expressions: what a token list parses to. */
module WhatIfGrammar {
  import opened WhatIfTokens

  /** Numbers are named by their token; a unary sign is `0 op x`. */
  datatype Tree = Num(text: string) | Ref(name: string) | Fn(fn: string, args: seq<Tree>) | Bin(op: string, l: Tree, r: Tree)

  datatype Parsed = Good(tree: Tree, rest: seq<string>) | Bad(fault: Fault)
  datatype ParsedArgs = GoodArgs(args: seq<Tree>, rest: seq<string>) | BadArgs(fault: Fault)

  predicate Additive(x: string) {
    x == "+" || x == "-"
  }

  predicate Multiplicative(x: string) {
    x == "*" || x == "/"
  }

  predicate NumberStart(x: string) {
    x != "" && (Digit(x[0]) || x[0] == '.')
  }

  predicate NameStart(x: string) {
    x != "" && Letter(x[0])
  }

  /** What the table of functions answers to: its own entries, and what every JavaScript object inherits. */
  predicate KnownFunction(name: string) {
    name in {"min", "max"} || Inherited(name)
  }

  predicate Inherited(name: string) {
    name in {"constructor", "hasOwnProperty", "isPrototypeOf", "propertyIsEnumerable", "toLocaleString", "toString", "valueOf"} + DUNDERS
  }

  const DUNDERS := {"__defineGetter__", "__defineSetter__", "__lookupGetter__", "__lookupSetter__", "__proto__"}

  // ----- expressions, terms, unaries, primaries

  function ParseExpr(ts: seq<string>): (p: Parsed)
    ensures p.Good? ==> |p.rest| < |ts|
    decreases |ts|, 4
  {
    match ParseTerm(ts)
    case Bad(fault) => Bad(fault)
    case Good(l, rest) => ExprLoop(l, rest)
  }

  function ExprLoop(l: Tree, ts: seq<string>): (p: Parsed)
    ensures p.Good? ==> |p.rest| <= |ts|
    decreases |ts|, 0
  {
    if ts != [] && Additive(ts[0]) then
      match ParseTerm(ts[1..])
      case Bad(fault) => Bad(fault)
      case Good(r, rest) => ExprLoop(Bin(ts[0], l, r), rest)
    else Good(l, ts)
  }

  function ParseTerm(ts: seq<string>): (p: Parsed)
    ensures p.Good? ==> |p.rest| < |ts|
    decreases |ts|, 3
  {
    match ParseUnary(ts)
    case Bad(fault) => Bad(fault)
    case Good(l, rest) => TermLoop(l, rest)
  }

  function TermLoop(l: Tree, ts: seq<string>): (p: Parsed)
    ensures p.Good? ==> |p.rest| <= |ts|
    decreases |ts|, 0
  {
    if ts != [] && Multiplicative(ts[0]) then
      match ParseUnary(ts[1..])
      case Bad(fault) => Bad(fault)
      case Good(r, rest) => TermLoop(Bin(ts[0], l, r), rest)
    else Good(l, ts)
  }

  function ParseUnary(ts: seq<string>): (p: Parsed)
    ensures p.Good? ==> |p.rest| < |ts|
    decreases |ts|, 2
  {
    if ts != [] && Additive(ts[0]) then
      match ParseUnary(ts[1..])
      case Bad(fault) => Bad(fault)
      case Good(r, rest) => Good(Bin(ts[0], Num("0"), r), rest)
    else ParsePrimary(ts)
  }

  function ParsePrimary(ts: seq<string>): (p: Parsed)
    ensures p.Good? ==> |p.rest| < |ts|
    decreases |ts|, 1
  {
    if ts == [] then Bad(EndsEarly)
    else if ts[0] == "(" then
      match ParseExpr(ts[1..])
      case Bad(fault) => Bad(fault)
      case Good(tree, rest) => Closed(tree, rest)
    else if NumberStart(ts[0]) then Good(Num(ts[0]), ts[1..])
    else if NameStart(ts[0]) then
      if |ts| > 1 && ts[1] == "(" then
        match ParseArgs([], ts[2..])
        case BadArgs(fault) => Bad(fault)
        case GoodArgs(args, rest) => Called(ts[0], args, rest)
      else Good(Ref(ts[0]), ts[1..])
    else Bad(Unexpected(ts[0]))
  }

  function Closed(tree: Tree, rest: seq<string>): Parsed {
    if rest != [] && rest[0] == ")" then Good(tree, rest[1..]) else Bad(Expected(")"))
  }

  function Called(name: string, args: seq<Tree>, rest: seq<string>): Parsed {
    if rest == [] || rest[0] != ")" then Bad(Expected(")"))
    else if !KnownFunction(name) then Bad(UnknownFunction(name))
    else if |args| < 2 then Bad(TooFewArguments(name))
    else Good(Fn(name, args), rest[1..])
  }

  /** Comma-separated expressions, appended to `before`. */
  function ParseArgs(before: seq<Tree>, ts: seq<string>): (p: ParsedArgs)
    ensures p.GoodArgs? ==> |p.rest| < |ts|
    decreases |ts|, 5
  {
    match ParseExpr(ts)
    case Bad(fault) => BadArgs(fault)
    case Good(arg, rest) =>
      if rest != [] && rest[0] == "," then ParseArgs(before + [arg], rest[1..]) else GoodArgs(before + [arg], rest)
  }

  /** A whole token list as one expression. */
  function ParseAll(ts: seq<string>): Outcome<Tree> {
    match ParseExpr(ts)
    case Bad(fault) => Wrong(fault)
    case Good(tree, rest) => if rest == [] then Right(tree) else Wrong(Unexpected(rest[0]))
  }

  /** A whole source text as one expression. */
  function Read(src: string): Outcome<Tree> {
    match TokensOf(src)
    case Wrong(fault) => Wrong(fault)
    case Right(tokens) => ParseAll(tokens)
  }

  // ----- the trees that parsing yields

  predicate WellFormed(t: Tree) {
    match t
    case Num(text) => IsToken(text) && NumberStart(text)
    case Ref(name) => IsToken(name) && NameStart(name)
    case Fn(fn, args) => KnownFunction(fn) && |args| >= 2 && forall i :: 0 <= i < |args| ==> WellFormed(args[i])
    case Bin(op, l, r) => (Additive(op) || Multiplicative(op)) && WellFormed(l) && WellFormed(r)
  }

  predicate AllTokens(ts: seq<string>) {
    forall i :: 0 <= i < |ts| ==> IsToken(ts[i])
  }

  predicate AllWellFormed(args: seq<Tree>) {
    forall i :: 0 <= i < |args| ==> WellFormed(args[i])
  }
}
