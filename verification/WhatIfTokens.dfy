/** The tokens of a what-if expression. */
module WhatIfTokens {
  import opened Joining
  import opened Options
  import opened Whitespace

  // ----- one token

  predicate Digit(c: char) {
    '0' <= c <= '9'
  }

  predicate Letter(c: char) {
    'A' <= c <= 'Z' || 'a' <= c <= 'z' || c == '_'
  }

  predicate Operator(c: char) {
    c in "-+*/(),"
  }

  /** The characters, by their code points. */
  lemma CharsExactly(c: char)
    ensures Digit(c) <==> 48 <= c as int <= 57
    ensures Letter(c) <==> 65 <= c as int <= 90 || c as int == 95 || 97 <= c as int <= 122
    ensures Operator(c) <==> c == '-' || c == '+' || c == '*' || c == '/' || c == '(' || c == ')' || c == ','
  {
  }

  datatype Kind = Number | Name | Blank

  predicate Runs(kind: Kind, c: char) {
    match kind
    case Number => Digit(c)
    case Name => Letter(c) || Digit(c)
    case Blank => Space(c)
  }

  /** How many characters of `s` run on from its start. */
  function Run(kind: Kind, s: string): (n: nat)
    ensures n <= |s|
    ensures n < |s| ==> !Runs(kind, s[n])
    ensures forall i :: 0 <= i < n ==> Runs(kind, s[i])
  {
    if s != "" && Runs(kind, s[0]) then 1 + Run(kind, s[1..]) else 0
  }

  predicate FractionAt(s: string, n: nat) {
    n + 1 < |s| && s[n] == '.' && Digit(s[n + 1])
  }

  /** WI_TOKEN at the start of `s`: the length of what it matches, 0 for nothing. */
  function TokenLength(s: string): (n: nat)
    ensures n <= |s|
  {
    var digits := Run(Number, s);
    if FractionAt(s, digits) then digits + 1 + Run(Number, s[digits + 1..])
    else if digits > 0 then digits
    else if s == "" then 0
    else if Letter(s[0]) then Run(Name, s)
    else if Operator(s[0]) then 1
    else Run(Blank, s)
  }

  predicate IsBlank(s: string) {
    s != "" && forall i :: 0 <= i < |s| ==> Space(s[i])
  }

  /** A string the scanner takes whole, as one token. */
  predicate IsToken(x: string) {
    x != "" && !Space(x[0]) && TokenLength(x) == |x|
  }

  // ----- the scan

  /** Where scanning stops: at a character that starts no token. */
  datatype Scanned = Tokens(tokens: seq<string>) | BadChar(rest: string)

  /** The tokens of `s`, blanks skipped. */
  function Scan(s: string): (r: Scanned)
    ensures r.BadChar? ==> |r.rest| <= |s|
    decreases |s|
  {
    var n := TokenLength(s);
    if s == "" then Tokens([])
    else if n == 0 then BadChar(s)
    else match Scan(s[n..])
      case BadChar(rest) => BadChar(rest)
      case Tokens(tokens) => Tokens((if IsBlank(s[..n]) then [] else [s[..n]]) + tokens)
  }

  function Unblank(pieces: seq<string>): seq<string> {
    if pieces == [] then [] else (if IsBlank(pieces[0]) then [] else [pieces[0]]) + Unblank(pieces[1..])
  }

  lemma {:induction false} UnblankSplits(a: seq<string>, b: seq<string>)
    ensures Unblank(a + b) == Unblank(a) + Unblank(b)
  {
    hide IsBlank;
    if a == [] {
      assert a + b == b;
    } else {
      assert (a + b)[1..] == a[1..] + b;
      UnblankSplits(a[1..], b);
    }
  }

  lemma JoinOne(pieces: seq<string>, x: string)
    ensures Join(pieces + [x]) == Join(pieces) + x
    ensures Unblank(pieces + [x]) == Unblank(pieces) + if IsBlank(x) then [] else [x]
  {
    UnblankSplits(pieces, [x]);
    hide IsBlank;
    assert (pieces + [x])[..|pieces|] == pieces;
    assert [x][1..] == [];
  }

  datatype Fault = BadCharAt(at: nat) | Expected(token: string) | EndsEarly | Unexpected(token: string) | UnknownFunction(name: string) | TooFewArguments(name: string)

  datatype Outcome<+T> = Right(value: T) | Wrong(fault: Fault)

  /** The tokens of a text, or where it has none. */
  function TokensOf(src: string): Outcome<seq<string>> {
    match Scan(src)
    case Tokens(tokens) => Right(tokens)
    case BadChar(rest) => Wrong(BadCharAt(|src| - |rest|))
  }

  /**
   whatifTokens: every character is accounted for. The pieces rebuild the source up to where the scan
   ends, and the tokens are the pieces that are not blank.
   */
  method Tokenize(src: string) returns (out: Outcome<seq<string>>, ghost pieces: seq<string>)
    ensures out == TokensOf(src)
    ensures match out
      case Right(tokens) => Join(pieces) == src && tokens == Unblank(pieces)
      case Wrong(fault) => fault.BadCharAt? && fault.at < |src| && Join(pieces) == src[..fault.at] && TokenLength(src[fault.at..]) == 0
    ensures forall k :: 0 <= k < |pieces| ==> IsBlank(pieces[k]) || IsToken(pieces[k])
  {
    hide TokenLength, IsBlank, IsToken, Join, Unblank, Scan, After;
    var tokens: seq<string>, at := [], 0;
    pieces := [];
    assert Join([]) == "" && Unblank([]) == [] by { JoinNone(); }
    assert src[0..] == src;
    ScanStart(src);
    while at < |src|
      invariant 0 <= at <= |src|
      invariant Join(pieces) == src[..at] && tokens == Unblank(pieces)
      invariant forall k :: 0 <= k < |pieces| ==> IsBlank(pieces[k]) || IsToken(pieces[k])
      invariant Scan(src) == After(tokens, Scan(src[at..]))
      decreases |src| - at
    {
      var n := TokenLength(src[at..]);
      if n == 0 {
        ScanStops(src, at, tokens);
        return Wrong(BadCharAt(at)), pieces;
      }
      var piece := src[at..at + n];
      ScanStep(src, at, tokens);
      JoinOne(pieces, piece);
      assert src[..at + n] == src[..at] + piece;
      pieces := pieces + [piece];
      at := at + n;
      if !IsBlank(piece) {
        tokens := tokens + [piece];
      }
    }
    assert src[..at] == src && src[at..] == "";
    ScanEnds(tokens);
    return Right(tokens), pieces;
  }

  lemma ScanStart(src: string)
    ensures Scan(src) == After([], Scan(src))
  {
    hide TokenLength, IsBlank;
    if Scan(src).Tokens? { assert [] + Scan(src).tokens == Scan(src).tokens; }
  }

  lemma ScanStops(src: string, at: nat, tokens: seq<string>)
    requires at < |src| && TokenLength(src[at..]) == 0
    ensures After(tokens, Scan(src[at..])) == BadChar(src[at..])
  {
    hide TokenLength;
  }

  lemma ScanEnds(tokens: seq<string>)
    ensures After(tokens, Scan("")) == Tokens(tokens)
  {
    assert tokens + [] == tokens;
  }

  lemma JoinNone()
    ensures Join([]) == "" && Unblank([]) == []
  {
  }

  function After(tokens: seq<string>, rest: Scanned): Scanned {
    if rest.Tokens? then Tokens(tokens + rest.tokens) else rest
  }

  lemma ScanStep(src: string, at: nat, tokens: seq<string>)
    requires at < |src| && TokenLength(src[at..]) > 0
    ensures var n := TokenLength(src[at..]); var piece := src[at..at + n];
      && (IsBlank(piece) || IsToken(piece))
      && After(tokens, Scan(src[at..])) == After(if IsBlank(piece) then tokens else tokens + [piece], Scan(src[at + n..]))
  {
    hide TokenLength, IsBlank, IsToken, Scan, Space;
    var s, n := src[at..], TokenLength(src[at..]);
    assert s[..n] == src[at..at + n] && s[n..] == src[at + n..];
    TokenIsWhole(s);
    ScanUnfolds(s);
    if Scan(s[n..]).Tokens? {
      assert (tokens + [s[..n]]) + Scan(s[n..]).tokens == tokens + ([s[..n]] + Scan(s[n..]).tokens);
    }
  }

  lemma ScanUnfolds(s: string)
    requires TokenLength(s) > 0
    ensures var n := TokenLength(s); Scan(s) == After(if IsBlank(s[..n]) then [] else [s[..n]], Scan(s[n..]))
  {
    hide TokenLength, IsBlank;
  }

  /** What the scanner matches, it matches when it stands alone. */
  lemma TokenIsWhole(s: string)
    requires TokenLength(s) > 0
    ensures IsBlank(s[..TokenLength(s)]) || IsToken(s[..TokenLength(s)])
  {
    hide Space;
    var n := TokenLength(s);
    var x, rest := s[..n], s[n..];
    if Space(s[0]) { SpaceIsNothingElse(s[0]); }
    assert s == x + rest;
    var digits := Run(Number, s);
    if FractionAt(s, digits) {
      RunOfPrefix(Number, s, n);
      RunOfPrefix(Number, s[digits + 1..], n - digits - 1);
      assert x[digits + 1..] == s[digits + 1..][..n - digits - 1];
    } else if digits > 0 {
      RunOfPrefix(Number, s, n);
    } else if Letter(s[0]) {
      RunOfPrefix(Name, s, n);
    }
  }

  lemma {:induction false} RunOfPrefix(kind: Kind, s: string, n: nat)
    requires Run(kind, s) <= n <= |s|
    ensures Run(kind, s[..n]) == Run(kind, s)
  {
    hide Runs;
    if n > 0 && Runs(kind, s[0]) {
      RunOfPrefix(kind, s[1..], n - 1);
      assert s[..n][1..] == s[1..][..n - 1];
    }
  }

  // ----- scanning back what was written

  predicate Wordy(c: char) {
    Letter(c) || Digit(c) || c == '.'
  }

  /** Tokens that would run together without a blank between them. */
  predicate Clash(a: string, b: string) {
    a != "" && b != "" && Wordy(a[0]) && Wordy(b[0])
  }

  predicate BlankOrNone(s: string) {
    forall i :: 0 <= i < |s| ==> Space(s[i])
  }

  /** The tokens with `gaps[i]` before token `i` and the last gap at the end. */
  function Spaced(tokens: seq<string>, gaps: seq<string>): string
    requires |gaps| == |tokens| + 1
  {
    if tokens == [] then gaps[0] else gaps[0] + tokens[0] + Spaced(tokens[1..], gaps[1..])
  }

  /** Every gap is blank, and not empty where two tokens would run together. */
  predicate GapsFit(tokens: seq<string>, gaps: seq<string>) {
    && |gaps| == |tokens| + 1
    && (forall i :: 0 <= i < |gaps| ==> BlankOrNone(gaps[i]))
    && (forall i :: 0 < i < |tokens| && Clash(tokens[i - 1], tokens[i]) ==> gaps[i] != "")
  }

  /** Tokens written out with fitting gaps scan back as those tokens. */
  lemma {:induction false} ScanSpaced(tokens: seq<string>, gaps: seq<string>)
    requires GapsFit(tokens, gaps) && forall i :: 0 <= i < |tokens| ==> IsToken(tokens[i])
    ensures Scan(Spaced(tokens, gaps)) == Tokens(tokens)
    decreases |tokens|
  {
    if tokens == [] {
      ScanGap(gaps[0], "");
      assert gaps[0] + "" == gaps[0];
    } else {
      var x, rest := tokens[0], Spaced(tokens[1..], gaps[1..]);
      FitsTail(tokens, gaps);
      ScanSpaced(tokens[1..], gaps[1..]);
      SpacedStarts(tokens, gaps);
      ScanToken(x, rest);
      ScanGap(gaps[0], x + rest);
      assert gaps[0] + x + rest == gaps[0] + (x + rest);
      assert [tokens[0]] + tokens[1..] == tokens;
    }
  }

  lemma FitsTail(tokens: seq<string>, gaps: seq<string>)
    requires GapsFit(tokens, gaps) && tokens != []
    ensures GapsFit(tokens[1..], gaps[1..])
  {
    hide BlankOrNone, Clash;
    forall i | 0 < i < |tokens[1..]| && Clash(tokens[1..][i - 1], tokens[1..][i])
      ensures gaps[1..][i] != ""
    {
      assert Clash(tokens[i], tokens[i + 1]);
      assert tokens[(i + 1) - 1] == tokens[i];
    }
  }

  /** What follows the first token cannot extend it. */
  predicate Ends(x: string, rest: string) {
    rest == "" || (x != "" && Wordy(x[0]) ==> !Wordy(rest[0]))
  }

  lemma SpacedStarts(tokens: seq<string>, gaps: seq<string>)
    requires GapsFit(tokens, gaps) && tokens != [] && forall i :: 0 <= i < |tokens| ==> IsToken(tokens[i])
    ensures Ends(tokens[0], Spaced(tokens[1..], gaps[1..]))
  {
    hide IsToken;
    var rest, gap := Spaced(tokens[1..], gaps[1..]), gaps[1];
    if gap != "" {
      assert Space(gap[0]);
      assert rest[0] == gap[0];
    } else if |tokens| > 1 {
      assert !Clash(tokens[1 - 1], tokens[1]);
      TokenNotEmpty(tokens[1]);
      assert rest[0] == tokens[1][0];
    }
  }

  lemma TokenNotEmpty(x: string)
    requires IsToken(x)
    ensures x != ""
  {
  }

  lemma {:induction false} RunStops(kind: Kind, x: string, rest: string)
    requires Run(kind, x) < |x| || rest == "" || !Runs(kind, rest[0])
    ensures Run(kind, x + rest) == Run(kind, x)
  {
    hide Runs;
    if x == "" {
      assert x + rest == rest;
    } else if Runs(kind, x[0]) {
      RunStops(kind, x[1..], rest);
      assert (x + rest)[1..] == x[1..] + rest;
    }
  }

  lemma LengthHolds(x: string, rest: string)
    requires IsToken(x) && Ends(x, rest)
    ensures TokenLength(x + rest) == |x|
  {
    var digits := Run(Number, x);
    if FractionAt(x, digits) {
      RunStops(Number, x, rest);
      RunStops(Number, x[digits + 1..], rest);
      assert (x + rest)[digits + 1..] == x[digits + 1..] + rest;
      assert FractionAt(x + rest, digits);
    } else if digits > 0 {
      RunStops(Number, x, rest);
      assert !FractionAt(x + rest, digits);
    } else if Letter(x[0]) {
      RunStops(Name, x, rest);
    } else {
      assert !Digit(x[0]) && !FractionAt(x + rest, 0) by { OperatorFirst(x); }
    }
  }

  lemma OperatorFirst(x: string)
    requires IsToken(x) && Run(Number, x) == 0 && !FractionAt(x, 0) && !Letter(x[0])
    ensures Operator(x[0]) && |x| == 1
  {
    hide Space;
  }

  lemma ScanToken(x: string, rest: string)
    requires IsToken(x) && Ends(x, rest)
    ensures Scan(x + rest) == match Scan(rest)
      case BadChar(r) => BadChar(r)
      case Tokens(tokens) => Tokens([x] + tokens)
  {
    LengthHolds(x, rest);
    hide TokenLength, Space;
    assert (x + rest)[..|x|] == x && (x + rest)[|x|..] == rest;
  }

  lemma ScanGap(gap: string, rest: string)
    requires BlankOrNone(gap) && (rest == "" || !Space(rest[0]))
    ensures Scan(gap + rest) == Scan(rest)
  {
    if gap == "" {
      assert gap + rest == rest;
    } else {
      BlankLength(gap, rest);
      hide TokenLength, Space;
      assert (gap + rest)[..|gap|] == gap && (gap + rest)[|gap|..] == rest;
      assert IsBlank(gap);
    }
  }

  lemma {:induction false} BlankRuns(gap: string)
    requires BlankOrNone(gap)
    ensures Run(Blank, gap) == |gap|
  {
    hide Space;
    if gap != "" {
      BlankRuns(gap[1..]);
    }
  }

  lemma BlankLength(gap: string, rest: string)
    requires BlankOrNone(gap) && gap != "" && (rest == "" || !Space(rest[0]))
    ensures TokenLength(gap + rest) == |gap|
  {
    BlankRuns(gap);
    RunStops(Blank, gap, rest);
    assert Space(gap[0]);
    SpaceIsNothingElse(gap[0]);
  }

  lemma SpaceIsNothingElse(c: char)
    requires Space(c)
    ensures !Digit(c) && !Letter(c) && !Operator(c) && c != '.'
  {
  }
}
