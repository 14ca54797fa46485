/** The text codecs of codex-ask, each with the reader that undoes it. */
module Codecs {
  import opened Options

  function ReplaceAll(s: string, c: char, sub: string): string {
    if s == "" then "" else (if s[0] == c then sub else [s[0]]) + ReplaceAll(s[1..], c, sub)
  }

  lemma {:induction false} ReplaceAllConcat(s: string, t: string, c: char, sub: string)
    ensures ReplaceAll(s + t, c, sub) == ReplaceAll(s, c, sub) + ReplaceAll(t, c, sub)
  {
    if s == "" {
      assert s + t == t;
    } else {
      assert (s + t)[1..] == s[1..] + t;
      ReplaceAllConcat(s[1..], t, c, sub);
    }
  }

  // ----- shell words

  datatype Quoting = Unquoted | Single | Double

  /** Unquoted characters that a POSIX shell does not take literally inside an argument word. */
  predicate Special(c: char) {
    c in "|&;<>()$`\\*?[]#~!{}"
  }

  predicate Blank(c: char) {
    c == ' ' || c == '\t' || c == '\n'
  }

  /** The argument words of shell text, by the quoting rules of the POSIX Shell Command Language, sections 2.2.2 and 2.2.3; none if it is not all literal. */
  function Words(s: string, word: Option<string>, q: Quoting): Option<seq<string>> {
    var sofar := if word.Some? then word.value else "";
    if s == "" then
      if q != Unquoted then None else Some(if word.Some? then [word.value] else [])
    else
      var c, rest := s[0], s[1..];
      match q
      case Single => if c == '\'' then Words(rest, Some(sofar), Unquoted) else Words(rest, Some(sofar + [c]), Single)
      case Double =>
        if c == '"' then Words(rest, Some(sofar), Unquoted)
        else if c in "$`\\" then None
        else Words(rest, Some(sofar + [c]), Double)
      case Unquoted =>
        if c == '\'' then Words(rest, Some(sofar), Single)
        else if c == '"' then Words(rest, Some(sofar), Double)
        else if Special(c) then None
        else if Blank(c) then
          var more := Words(rest, None, Unquoted);
          if more.None? then None else Some((if word.Some? then [word.value] else []) + more.value)
        else Words(rest, Some(sofar + [c]), Unquoted)
  }

  predicate SafeChar(c: char) {
    'a' <= c <= 'z' || 'A' <= c <= 'Z' || '0' <= c <= '9' || c in "@%+=:,./-_"
  }

  /** The safe characters, by their code points. */
  lemma SafeExactly(c: char)
    ensures SafeChar(c) <==>
      48 <= c as int <= 57 || 65 <= c as int <= 90 || 97 <= c as int <= 122 || c as int in {64, 37, 43, 61, 58, 44, 46, 47, 45, 95}
  {
    assert c in "@%+=:,./-_" <==>
      c == '@' || c == '%' || c == '+' || c == '=' || c == ':' || c == ',' || c == '.' || c == '/' || c == '-' || c == '_';
  }

  const APOSTROPHE := "'\"'\"'"

  lemma SafeIsPlain(c: char)
    requires SafeChar(c)
    ensures !Special(c) && !Blank(c) && c != '\'' && c != '"'
  {
  }

  lemma SafeStep(c: char, rest: string, word: Option<string>)
    requires SafeChar(c)
    ensures Words([c] + rest, word, Unquoted) == Words(rest, Some((if word.Some? then word.value else "") + [c]), Unquoted)
  {
    SafeIsPlain(c);
    hide SafeChar, Special, Blank;
    assert ([c] + rest)[0] == c && ([c] + rest)[1..] == rest;
  }

  lemma {:induction false} SafeWord(s: string, word: string)
    requires forall i :: 0 <= i < |s| ==> SafeChar(s[i])
    ensures Words(s, Some(word), Unquoted) == Some([word + s])
  {
    if s == "" {
      assert word + s == word;
    } else {
      SafeStep(s[0], s[1..], Some(word));
      hide Words, SafeChar;
      assert [s[0]] + s[1..] == s;
      SafeWord(s[1..], word + [s[0]]);
      assert word + [s[0]] + s[1..] == word + s;
    }
  }

  lemma WholeSafeWord(s: string)
    requires s != "" && forall i :: 0 <= i < |s| ==> SafeChar(s[i])
    ensures Words(s, None, Unquoted) == Some([s])
  {
    hide Words, SafeChar;
    SafeStep(s[0], s[1..], None);
    assert [s[0]] + s[1..] == s && "" + [s[0]] == [s[0]];
    SafeWord(s[1..], [s[0]]);
  }

  lemma ApostropheReads(rest: string, word: string)
    ensures Words(APOSTROPHE + rest, Some(word), Single) == Words(rest, Some(word + "'"), Single)
  {
    var t := APOSTROPHE + rest;
    var t1, t2, t3, t4 := "\"'\"'" + rest, "'\"'" + rest, "\"'" + rest, "'" + rest;
    assert t[1..] == t1 && t1[1..] == t2 && t2[1..] == t3 && t3[1..] == t4 && t4[1..] == rest;
    calc {
      Words(t, Some(word), Single);
      Words(t1, Some(word), Unquoted);
      Words(t2, Some(word), Double);
      Words(t3, Some(word + "'"), Double);
      Words(t4, Some(word + "'"), Unquoted);
      Words(rest, Some(word + "'"), Single);
    }
  }

  lemma {:induction false} QuotedWord(s: string, word: string)
    ensures Words(ReplaceAll(s, '\'', APOSTROPHE) + "'", Some(word), Single) == Some([word + s])
  {
    if s == "" {
      assert ReplaceAll(s, '\'', APOSTROPHE) + "'" == "'";
      assert "'"[1..] == "";
      assert word + s == word;
    } else {
      var rest := ReplaceAll(s[1..], '\'', APOSTROPHE) + "'";
      QuotedWord(s[1..], word + [s[0]]);
      assert word + [s[0]] + s[1..] == word + s;
      if s[0] == '\'' {
        assert ReplaceAll(s, '\'', APOSTROPHE) + "'" == APOSTROPHE + rest;
        ApostropheReads(rest, word);
      } else {
        assert ReplaceAll(s, '\'', APOSTROPHE) + "'" == [s[0]] + rest;
        assert ([s[0]] + rest)[1..] == rest;
      }
    }
  }

  lemma EmptyWord()
    ensures Words("''", None, Unquoted) == Some([""])
  {
    assert "''"[1..] == "'" && "'"[1..] == "";
  }

  lemma WholeQuotedWord(s: string)
    ensures Words("'" + ReplaceAll(s, '\'', APOSTROPHE) + "'", None, Unquoted) == Some([s])
  {
    hide ReplaceAll;
    var body := ReplaceAll(s, '\'', APOSTROPHE) + "'";
    var quoted := "'" + ReplaceAll(s, '\'', APOSTROPHE) + "'";
    assert quoted[0] == '\'' && quoted[1..] == body;
    QuotedWord(s, "");
    assert "" + s == s;
    assert Words(quoted, None, Unquoted) == Words(body, Some(""), Single);
  }

  /** A shell reads the quoted text back as one word, the original. */
  method ShlexQuote(s: string) returns (quoted: string)
    ensures Words(quoted, None, Unquoted) == Some([s])
    ensures quoted == if s != "" && (forall i :: 0 <= i < |s| ==> SafeChar(s[i])) then s else "'" + ReplaceAll(s, '\'', "'\"'\"'") + "'"
  {
    hide Words, SafeChar;
    if s == "" {
      EmptyWord();
      return "''";
    }
    hide ReplaceAll;
    var safe := true;
    for i := 0 to |s|
      invariant safe ==> forall j :: 0 <= j < i ==> SafeChar(s[j])
    {
      if !SafeChar(s[i]) {
        safe := false;
        break;
      }
    }
    if safe {
      WholeSafeWord(s);
      return s;
    }
    WholeQuotedWord(s);
    quoted := "'" + ReplaceAll(s, '\'', APOSTROPHE) + "'";
  }

  // ----- JSON strings

  predicate IsHex(c: char) {
    '0' <= c <= '9' || 'a' <= c <= 'f' || 'A' <= c <= 'F'
  }

  function HexValue(c: char): (n: nat)
    requires IsHex(c)
    ensures n < 16
  {
    if '0' <= c <= '9' then c as int - '0' as int
    else if 'a' <= c <= 'f' then 10 + c as int - 'a' as int
    else 10 + c as int - 'A' as int
  }

  /** The hexadecimal digits, by their code points. */
  lemma HexExactly(c: char)
    ensures IsHex(c) <==> 48 <= c as int <= 57 || 97 <= c as int <= 102 || 65 <= c as int <= 70
    ensures IsHex(c) ==> HexValue(c) == c as int - if c as int <= 57 then 48 else if c as int <= 70 then 55 else 87
  {
  }

  /** The two-character escapes. */
  lemma EscapesMean(c: char)
    ensures Escaped('b') == Some(8 as char) && Escaped('f') == Some(12 as char) && Escaped('n') == Some(10 as char)
    ensures Escaped('r') == Some(13 as char) && Escaped('t') == Some(9 as char)
    ensures c in "\"\\/" ==> Escaped(c) == Some(c)
    ensures c !in "\"\\/bfnrt" ==> Escaped(c) == None
  {
  }

  /** Four hexadecimal digits, as a number. */
  lemma DigitsMean(s: string)
    requires |s| == 4 && Unicode(s).Some?
    ensures forall i :: 0 <= i < 4 ==> IsHex(s[i])
    ensures Unicode(s).value as int == ((HexValue(s[0]) * 16 + HexValue(s[1])) * 16 + HexValue(s[2])) * 16 + HexValue(s[3])
  {
    hide HexValue;
  }

  function Escaped(c: char): Option<char> {
    match c
    case '"' => Some('"')
    case '\\' => Some('\\')
    case '/' => Some('/')
    case 'b' => Some(8 as char)
    case 'f' => Some(12 as char)
    case 'n' => Some('\n')
    case 'r' => Some('\r')
    case 't' => Some('\t')
    case _ => None
  }

  function Unicode(s: string): Option<char>
    requires |s| == 4
  {
    if !(IsHex(s[0]) && IsHex(s[1]) && IsHex(s[2]) && IsHex(s[3])) then None
    else
      var v := 4096 * HexValue(s[0]) + 256 * HexValue(s[1]) + 16 * HexValue(s[2]) + HexValue(s[3]);
      if 0xD800 <= v <= 0xDFFF then None else Some(v as char)
  }

  function Cons(c: char, rest: Option<string>): Option<string> {
    if rest.Some? then Some([c] + rest.value) else None
  }

  /** The text between a JSON string's quotes, read by section 7 of RFC 8259; surrogate pairs are not read. */
  function Decode(s: string): Option<string> {
    if s == "" then Some("")
    else if s[0] == '\\' then
      if |s| < 2 then None
      else if s[1] == 'u' then
        if |s| < 6 || Unicode(s[2..6]).None? then None else Cons(Unicode(s[2..6]).value, Decode(s[6..]))
      else if Escaped(s[1]).None? then None
      else Cons(Escaped(s[1]).value, Decode(s[2..]))
    else if s[0] == '"' || s[0] < ' ' then None
    else Cons(s[0], Decode(s[1..]))
  }

  /** A JSON string holds no raw control character and no raw quote, and nothing after a backslash but an escape. */
  lemma {:induction false} ReadsNoRaw(s: string)
    requires Decode(s).Some?
    ensures forall i :: 0 <= i < |s| ==> 32 <= s[i] as int
    ensures forall i :: 0 <= i < |s| && s[i] == '"' ==> 0 < i && s[i - 1] == '\\'
    ensures s != "" ==> Decode(s).value != ""
  {
    if s == "" {
    } else if s[0] != '\\' {
      ReadsNoRaw(s[1..]);
      assert s == [s[0]] + s[1..];
    } else if s[1] == 'u' {
      ReadsNoRaw(s[6..]);
      DigitsMean(s[2..6]);
      assert forall i :: 2 <= i < 6 ==> s[i] == s[2..6][i - 2];
      assert s == s[..6] + s[6..];
    } else {
      ReadsNoRaw(s[2..]);
      assert s == s[..2] + s[2..];
    }
  }

  /** An escape by code point stands for that character, and the rest is read on. */
  lemma CodePointRead(hex: string, rest: string)
    requires |hex| == 4
    ensures Decode("\\u" + hex + rest) == if Unicode(hex).None? then None else Cons(Unicode(hex).value, Decode(rest))
  {
    var s := "\\u" + hex + rest;
    assert s[2..6] == hex && s[6..] == rest;
  }

  predicate Carried(c: char) {
    c >= ' ' || c == '\t' || c == '\r' || c == '\n'
  }

  /** `s` without the control characters that a record cannot carry. */
  function CarriedPart(s: string): string {
    if s == "" then "" else (if Carried(s[0]) then [s[0]] else "") + CarriedPart(s[1..])
  }

  function EscapeMarks(s: string): string {
    var s1 := ReplaceAll(s, '\\', "\\\\");
    var s2 := ReplaceAll(s1, '"', "\\\"");
    var s3 := ReplaceAll(s2, '\t', "\\t");
    var s4 := ReplaceAll(s3, '\r', "\\r");
    ReplaceAll(s4, '\n', "\\n")
  }

  function Stripped(s: string): string {
    if s == "" then "" else (if s[0] >= ' ' then [s[0]] else "") + Stripped(s[1..])
  }

  lemma {:induction false} StrippedConcat(s: string, t: string)
    ensures Stripped(s + t) == Stripped(s) + Stripped(t)
  {
    if s == "" {
      assert s + t == t;
    } else {
      assert (s + t)[1..] == s[1..] + t && (s + t)[0] == s[0];
      StrippedConcat(s[1..], t);
      var kept := if s[0] >= ' ' then [s[0]] else "";
      calc {
        Stripped(s + t);
        kept + Stripped((s + t)[1..]);
        kept + (Stripped(s[1..]) + Stripped(t));
        (kept + Stripped(s[1..])) + Stripped(t);
        Stripped(s) + Stripped(t);
      }
    }
  }

  lemma MarksConcat(s: string, t: string)
    ensures EscapeMarks(s + t) == EscapeMarks(s) + EscapeMarks(t)
  {
    ReplaceAllConcat(s, t, '\\', "\\\\");
    var s1, t1 := ReplaceAll(s, '\\', "\\\\"), ReplaceAll(t, '\\', "\\\\");
    ReplaceAllConcat(s1, t1, '"', "\\\"");
    var s2, t2 := ReplaceAll(s1, '"', "\\\""), ReplaceAll(t1, '"', "\\\"");
    ReplaceAllConcat(s2, t2, '\t', "\\t");
    var s3, t3 := ReplaceAll(s2, '\t', "\\t"), ReplaceAll(t2, '\t', "\\t");
    ReplaceAllConcat(s3, t3, '\r', "\\r");
    ReplaceAllConcat(ReplaceAll(s3, '\r', "\\r"), ReplaceAll(t3, '\r', "\\r"), '\n', "\\n");
  }

  /** The whole escape of one character. */
  function EscapeOne(c: char): string {
    match c
    case '\\' => "\\\\"
    case '"' => "\\\""
    case '\t' => "\\t"
    case '\r' => "\\r"
    case '\n' => "\\n"
    case _ => if c >= ' ' then [c] else ""
  }

  lemma ReplaceOne(c: char, sub: string, d: char)
    ensures ReplaceAll([d], c, sub) == if d == c then sub else [d]
  {
    assert [d][1..] == "";
  }

  /** A backslash pair that a later pass leaves alone. */
  lemma ReplaceTwo(c: char, sub: string, d: char, e: char)
    requires d != c && e != c
    ensures ReplaceAll([d, e], c, sub) == [d, e]
  {
    ReplaceOne(c, sub, e);
    assert [d, e][1..] == [e];
    assert [d] + [e] == [d, e];
  }

  lemma EscapeOneIs(c: char)
    ensures Stripped(EscapeMarks([c])) == EscapeOne(c)
  {
    ReplaceOne('\\', "\\\\", c);
    ReplaceOne('"', "\\\"", c);
    ReplaceOne('\t', "\\t", c);
    ReplaceOne('\r', "\\r", c);
    ReplaceOne('\n', "\\n", c);
    ReplaceTwo('"', "\\\"", '\\', '\\');
    ReplaceTwo('\t', "\\t", '\\', '\\');
    ReplaceTwo('\r', "\\r", '\\', '\\');
    ReplaceTwo('\n', "\\n", '\\', '\\');
    ReplaceTwo('\t', "\\t", '\\', '"');
    ReplaceTwo('\r', "\\r", '\\', '"');
    ReplaceTwo('\n', "\\n", '\\', '"');
    ReplaceTwo('\r', "\\r", '\\', 't');
    ReplaceTwo('\n', "\\n", '\\', 't');
    ReplaceTwo('\n', "\\n", '\\', 'r');
    var e := EscapeMarks([c]);
    assert |e| == 1 || |e| == 2;
    assert e[1..] == if |e| == 1 then "" else [e[1]];
    if |e| == 2 { assert e[1..][1..] == ""; }
    if c == '\\' { assert e == "\\\\"; }
    if c == '"' { assert e == "\\\""; }
    if c == '\t' { assert e == "\\t"; }
    if c == '\r' { assert e == "\\r"; }
    if c == '\n' { assert e == "\\n"; }
  }

  lemma EscapeOneDecodes(c: char, tail: string)
    ensures Decode(EscapeOne(c) + tail) == if Carried(c) then Cons(c, Decode(tail)) else Decode(tail)
  {
    var whole := EscapeOne(c) + tail;
    if |EscapeOne(c)| == 2 {
      assert whole[2..] == tail;
    } else if |EscapeOne(c)| == 1 {
      assert whole[1..] == tail;
    } else {
      assert whole == tail;
    }
  }

  lemma {:induction false} EscapeDecodes(s: string)
    ensures Decode(Stripped(EscapeMarks(s))) == Some(CarriedPart(s))
  {
    if s == "" {
    } else {
      var c, rest := s[0], s[1..];
      assert s == [c] + rest;
      MarksConcat([c], rest);
      StrippedConcat(EscapeMarks([c]), EscapeMarks(rest));
      EscapeOneIs(c);
      EscapeOneDecodes(c, Stripped(EscapeMarks(rest)));
      EscapeDecodes(rest);
      hide Decode, EscapeMarks, EscapeOne, Stripped;
      assert "" + CarriedPart(rest) == CarriedPart(rest);
    }
  }

  /** A JSON reader gets back the text, less the control characters that were dropped. */
  method JsonEscape(s: string) returns (escaped: string)
    ensures Decode(escaped) == Some(CarriedPart(s))
  {
    hide Decode, EscapeMarks, Stripped, CarriedPart;
    var marked := EscapeMarks(s);
    escaped := "";
    assert marked[0..] == marked;
    for i := 0 to |marked|
      invariant escaped + Stripped(marked[i..]) == Stripped(marked)
    {
      StripStep(marked, i);
      if marked[i] >= ' ' {
        assert escaped + ([marked[i]] + Stripped(marked[i + 1..])) == escaped + [marked[i]] + Stripped(marked[i + 1..]);
        escaped := escaped + [marked[i]];
      }
    }
    StripEnd(marked);
    assert escaped == Stripped(marked);
    EscapeDecodes(s);
  }

  lemma StripStep(marked: string, i: nat)
    requires i < |marked|
    ensures Stripped(marked[i..]) == if marked[i] >= ' ' then [marked[i]] + Stripped(marked[i + 1..]) else Stripped(marked[i + 1..])
  {
    assert marked[i..][1..] == marked[i + 1..];
    assert "" + Stripped(marked[i + 1..]) == Stripped(marked[i + 1..]);
  }

  lemma StripEnd(marked: string)
    ensures Stripped(marked[|marked|..]) == ""
  {
    assert marked[|marked|..] == "";
  }

  // ----- lines

  predicate Break(c: char) {
    c == '\n' || c == '\r'
  }

  predicate OneLine(s: string) {
    forall i :: 0 <= i < |s| ==> !Break(s[i])
  }

  /** The length of the leading text without a line break. */
  function LineLength(s: string): (n: nat)
    ensures n <= |s| && OneLine(s[..n]) && (n < |s| ==> Break(s[n]))
  {
    if s == "" || Break(s[0]) then 0
    else
      var n := LineLength(s[1..]);
      assert s[..n + 1] == [s[0]] + s[1..][..n];
      n + 1
  }

  function BreakLength(s: string): (n: nat)
    requires s != ""
    ensures 1 <= n <= |s|
  {
    if s[0] == '\r' && |s| > 1 && s[1] == '\n' then 2 else 1
  }

  /** Lines broken at CR, LF and CRLF, with no empty line after a final break. */
  function Lines(s: string): (lines: seq<string>)
    ensures forall i :: 0 <= i < |lines| ==> OneLine(lines[i])
    decreases |s|
  {
    if s == "" then []
    else
      var n := LineLength(s);
      if n == |s| then [s] else [s[..n]] + Lines(s[n..][BreakLength(s[n..])..])
  }

  lemma {:induction false} LineLengthIs(s: string, n: nat)
    requires n <= |s| && OneLine(s[..n]) && (n < |s| ==> Break(s[n]))
    ensures LineLength(s) == n
  {
    if n > 0 {
      assert !Break(s[..n][0]);
      assert s[1..][..n - 1] == s[..n][1..];
      LineLengthIs(s[1..], n - 1);
    }
  }

  lemma LinesStep(s: string, start: nat, i: nat)
    requires start <= i < |s| && OneLine(s[start..i]) && Break(s[i])
    ensures Lines(s[start..]) == [s[start..i]] + Lines(s[i + BreakLength(s[i..])..])
  {
    var t := s[start..];
    assert t[..i - start] == s[start..i] && t[i - start..] == s[i..];
    LineLengthIs(t, i - start);
    assert s[i..][BreakLength(s[i..])..] == s[i + BreakLength(s[i..])..];
  }

  method SplitLines(s: string) returns (lines: seq<string>)
    ensures lines == Lines(s)
  {
    hide Lines;
    lines := [];
    var start, i := 0, 0;
    assert s[0..] == s;
    while i < |s|
      invariant 0 <= start <= i <= |s| && OneLine(s[start..i])
      invariant lines + Lines(s[start..]) == Lines(s)
    {
      if Break(s[i]) {
        LinesStep(s, start, i);
        lines := lines + [s[start..i]];
        if s[i] == '\r' && i + 1 < |s| && s[i + 1] == '\n' {
          i := i + 1;
        }
        i := i + 1;
        start := i;
      } else {
        assert s[start..i + 1] == s[start..i] + [s[i]];
        i := i + 1;
      }
    }
    assert s[start..i] == s[start..];
    LinesEnd(s[start..]);
    if start < |s| {
      lines := lines + [s[start..]];
    }
  }

  lemma LinesEnd(s: string)
    requires OneLine(s)
    ensures Lines(s) == if s == "" then [] else [s]
  {
    assert s[..|s|] == s;
    LineLengthIs(s, |s|);
  }

  /** A text without LF (10) or CR (13) is one line, if any. It is the first line when an LF, a CRLF or a CR follows it. */
  lemma LinesMean(l: string, mark: string, rest: string)
    requires forall i :: 0 <= i < |l| ==> l[i] as int !in {10, 13}
    ensures Lines(l) == if l == "" then [] else [l]
    ensures mark in {"\n", "\r\n"} || (mark == "\r" && (rest == "" || rest[0] != '\n')) ==> Lines(l + mark + rest) == [l] + Lines(rest)
  {
    LinesEnd(l);
    var s := l + mark + rest;
    if mark in {"\n", "\r\n"} || (mark == "\r" && (rest == "" || rest[0] != '\n')) {
      assert s[..|l|] == l && s[|l|..] == mark + rest && s[|l|] == mark[0];
      LineLengthIs(s, |l|);
      assert |mark| == 1 ==> s[|l|..][1..] == rest;
      assert |mark| == 2 ==> s[|l|..][2..] == rest;
    }
  }

  /** Every line followed by a line feed, as meta is published. */
  function Published(lines: seq<string>): string {
    if lines == [] then "" else lines[0] + "\n" + Published(lines[1..])
  }

  lemma LineThen(l: string, rest: string)
    requires OneLine(l)
    ensures Lines(l + "\n" + rest) == [l] + Lines(rest)
  {
    var s := l + "\n" + rest;
    assert s[..|l|] == l && s[|l|] == '\n';
    LineLengthIs(s, |l|);
    assert s[|l|..] == "\n" + rest;
    assert s[|l|..][1..] == rest;
  }

  /** Splitting published lines gives them back. */
  lemma {:induction false} LinesOfPublished(lines: seq<string>)
    requires forall i :: 0 <= i < |lines| ==> OneLine(lines[i])
    ensures Lines(Published(lines)) == lines
  {
    if lines != [] {
      LineThen(lines[0], Published(lines[1..]));
      LinesOfPublished(lines[1..]);
    }
  }

  /** The reply, the log and the info of a published meta come back as its lines. */
  lemma MetaRoundTrip(reply: string, log: string, info: string)
    requires OneLine(reply) && OneLine(log) && OneLine(info)
    ensures Lines(reply + "\n" + log + "\n" + info + "\n") == [reply, log, info]
  {
    hide Lines, LineLength;
    var end := info + "\n" + "";
    LinesEnd("");
    LineThen(info, "");
    LineThen(log, end);
    LineThen(reply, log + "\n" + end);
    assert end == info + "\n";
    assert reply + "\n" + log + "\n" + info + "\n" == reply + "\n" + (log + "\n" + end);
  }

  // ----- the log tail

  lemma NoMultipleBetween(n: int, q: int)
    requires n > 0
    ensures !(0 < n * q < n) && !(-n < n * q < 0)
  {
    if q >= 1 {
      assert n * q >= n;
    } else if q <= -1 {
      assert n * q <= -n;
    }
  }

  lemma ModIs(v: nat, q: int, r: nat, n: nat)
    requires r < n && v == n * q + r
    ensures v % n == r
  {
    assert n * (q - v / n) == v % n - r;
    NoMultipleBetween(n, q - v / n);
  }

  lemma ModDiffers(j: nat, k: nat, n: nat)
    requires j < k < j + n
    ensures j % n != k % n
  {
    assert k - j == n * (k / n - j / n) + (k % n - j % n);
    NoMultipleBetween(n, k / n - j / n);
  }

  /** The last `n` lines, kept in a ring of `n` slots. */
  method Tail(lines: seq<string>, n: int) returns (printed: seq<string>)
    ensures printed == if n <= 0 then [] else if |lines| <= n then lines else lines[|lines| - n..]
  {
    printed := [];
    if n <= 0 {
      return;
    }
    var ring := new string[n](_ => "");
    var count := 0;
    while count < |lines|
      invariant 0 <= count <= |lines|
      invariant forall j :: 0 <= j < count && count - n <= j ==> ring[j % n] == lines[j]
    {
      forall j | 0 <= j < count && count - n < j
        ensures j % n != count % n
      {
        ModDiffers(j, count, n);
      }
      ring[count % n] := lines[count];
      count := count + 1;
    }
    var start, total := 0, count;
    if total > n {
      start, total := count % n, n;
    }
    for i := 0 to total
      invariant printed == lines[|lines| - total..|lines| - total + i]
    {
      assert (start + i) % n == (count - total + i) % n by {
        if count > n { ModShift(count, i, n); }
      }
      printed := printed + [ring[(start + i) % n]];
    }
  }

  lemma ModShift(count: nat, i: nat, n: nat)
    requires 0 < n <= count && i < n
    ensures (count % n + i) % n == (count - n + i) % n
  {
    var a, q := count % n, count / n;
    assert count - n + i == n * (q - 1) + (a + i);
    if a + i < n {
      ModIs(count - n + i, q - 1, a + i, n);
      ModIs(a + i, 0, a + i, n);
    } else {
      ModIs(count - n + i, q, a + i - n, n);
      ModIs(a + i, 1, a + i - n, n);
    }
  }
}
