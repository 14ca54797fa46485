/**
 aiStream: a model reply arrives in pieces; lines are cut out of a growing buffer and folded into text,
 reasoning, a finish reason and tool calls. What a data line holds is left to the JSON parser, any
 function from lines to their content; the pieces are characters already decoded.
 */
module Stream {
  import opened Joining
  import opened Options
  import opened Whitespace

  /** One element of `tool_calls`; an absent string is "". */
  datatype ToolCall = ToolCall(index: nat, id: string, name: string, args: string)

  /** A data line: no JSON, JSON the reader cannot use (it throws), or a choice with its delta, if any. */
  datatype Data = NotJson | Unusable | NoChoice | Choice(finish: string, reasoning: string, content: string, calls: seq<ToolCall>)

  type Parse = string -> Data

  datatype Call = Call(id: string, name: string, args: string)

  /** What has been assembled; `calls` is the sparse array of tool calls. */
  datatype Reply = Reply(text: string, reasoning: string, finish: Option<string>, calls: map<nat, Call>)

  const EMPTY := Reply("", "", None, map[])

  // ----- lines

  /** Where the first line break is; the length when there is none. */
  function Break(s: string): (n: nat)
    ensures n <= |s| && (n < |s| ==> s[n] == '\n') && forall i :: 0 <= i < n ==> s[i] != '\n'
  {
    if s == "" || s[0] == '\n' then 0 else 1 + Break(s[1..])
  }

  /** The lines that are complete. */
  function Lines(s: string): seq<string>
    decreases |s|
  {
    if Break(s) == |s| then [] else [s[..Break(s)]] + Lines(s[Break(s) + 1..])
  }

  /** What follows the last line break. */
  function Tail(s: string): string
    decreases |s|
  {
    if Break(s) == |s| then s else Tail(s[Break(s) + 1..])
  }

  lemma BreakIs(s: string, n: nat)
    requires n <= |s| && (n < |s| ==> s[n] == '\n') && forall i :: 0 <= i < n ==> s[i] != '\n'
    ensures Break(s) == n
  {
  }

  /** More text completes the line that was open, and adds its own lines. */
  lemma {:induction false} LinesGrow(a: string, b: string)
    ensures Lines(a + b) == Lines(a) + Lines(Tail(a) + b) && Tail(a + b) == Tail(Tail(a) + b)
    decreases |a|
  {
    hide Lines, Tail;
    var n := Break(a);
    if n < |a| {
      LinesGrow(a[n + 1..], b);
      LinesStep(a, b);
      Assoc([a[..n]], Lines(a[n + 1..]), Lines(Tail(a[n + 1..]) + b));
    } else {
      OpenLine(a);
      assert [] + Lines(a + b) == Lines(a + b);
    }
  }

  lemma OpenLine(s: string)
    requires Break(s) == |s|
    ensures Lines(s) == [] && Tail(s) == s
  {
  }

  lemma LinesStep(a: string, b: string)
    requires Break(a) < |a|
    ensures var n := Break(a); var more := a[n + 1..];
      && Lines(a) == [a[..n]] + Lines(more) && Tail(a) == Tail(more)
      && Lines(a + b) == [a[..n]] + Lines(more + b) && Tail(a + b) == Tail(more + b)
  {
    var n := Break(a);
    BreakIs(a + b, n);
    assert (a + b)[..n] == a[..n] && (a + b)[n + 1..] == a[n + 1..] + b;
    hide Break;
  }

  // ----- one line

  function TrimStart(s: string): string {
    if s != "" && Space(s[0]) then TrimStart(s[1..]) else s
  }

  function TrimEnd(s: string): string {
    if s != "" && Space(s[|s| - 1]) then TrimEnd(s[..|s| - 1]) else s
  }

  function Trim(s: string): string {
    TrimEnd(TrimStart(s))
  }

  const DATA := "data:"

  /** The data of a line, if it carries any. */
  function DataOf(line: string, parse: Parse): Data {
    var l := Trim(line);
    if |l| < |DATA| || l[..|DATA|] != DATA then NotJson
    else
      var data := Trim(l[|DATA|..]);
      if data == "" || data == "[DONE]" then NotJson else parse(data)
  }

  function AddCall(calls: map<nat, Call>, tc: ToolCall): map<nat, Call> {
    var c := if tc.index in calls then calls[tc.index] else Call("", "", "");
    calls[tc.index := Call(if tc.id != "" then tc.id else c.id, c.name + tc.name, c.args + tc.args)]
  }

  function AddCalls(calls: map<nat, Call>, tcs: seq<ToolCall>): map<nat, Call> {
    if tcs == [] then calls else AddCall(AddCalls(calls, tcs[..|tcs| - 1]), tcs[|tcs| - 1])
  }

  function Take(r: Reply, d: Data): Reply {
    if !d.Choice? then r
    else Reply(r.text + d.content, r.reasoning + d.reasoning, if d.finish != "" then Some(d.finish) else r.finish, AddCalls(r.calls, d.calls))
  }

  /** All lines folded in; nothing if one of them makes the reader throw. */
  function Fold(r: Reply, lines: seq<string>, parse: Parse): Option<Reply>
    decreases |lines|
  {
    if lines == [] then Some(r)
    else if DataOf(lines[0], parse).Unusable? then None
    else Fold(Take(r, DataOf(lines[0], parse)), lines[1..], parse)
  }

  lemma {:induction false} FoldSplits(r: Reply, a: seq<string>, b: seq<string>, parse: Parse)
    ensures Fold(r, a + b, parse) == match Fold(r, a, parse) case None => None case Some(mid) => Fold(mid, b, parse)
    decreases |a|
  {
    hide DataOf, Take;
    if a == [] {
      assert a + b == b;
    } else {
      assert (a + b)[1..] == a[1..] + b;
      if !DataOf(a[0], parse).Unusable? {
        FoldSplits(Take(r, DataOf(a[0], parse)), a[1..], b, parse);
      }
    }
  }

  // ----- reading

  /** One line, as aiStream handles it. */
  method Handle(r: Reply, line: string, parse: Parse) returns (next: Option<Reply>)
    ensures next == if DataOf(line, parse).Unusable? then None else Some(Take(r, DataOf(line, parse)))
  {
    hide Trim, Space;
    var d := DataOf(line, parse);
    if d.Unusable? {
      return None;
    }
    if !d.Choice? {
      return Some(r);
    }
    assert r.text + "" == r.text && r.reasoning + "" == r.reasoning;
    var text, reasoning, finish, calls := r.text, r.reasoning, r.finish, r.calls;
    if d.finish != "" { finish := Some(d.finish); }
    if d.reasoning != "" { reasoning := reasoning + d.reasoning; }
    if d.content != "" { text := text + d.content; }
    for i := 0 to |d.calls|
      invariant calls == AddCalls(r.calls, d.calls[..i])
    {
      var tc := d.calls[i];
      assert d.calls[..i + 1][..i] == d.calls[..i];
      var c := if tc.index in calls then calls[tc.index] else Call("", "", "");
      assert c.name + "" == c.name && c.args + "" == c.args;
      if tc.id != "" { c := c.(id := tc.id); }
      if tc.name != "" { c := c.(name := c.name + tc.name); }
      if tc.args != "" { c := c.(args := c.args + tc.args); }
      calls := calls[tc.index := c];
    }
    assert d.calls[..|d.calls|] == d.calls;
    next := Some(Reply(text, reasoning, finish, calls));
  }

  /** The inner loop: every complete line out of the buffer. */
  method Drain(r: Reply, buffer: string, parse: Parse) returns (next: Option<Reply>, rest: string)
    ensures next == Fold(r, Lines(buffer), parse)
    ensures next.Some? ==> rest == Tail(buffer)
  {
    hide DataOf, Take;
    var reply := r;
    rest := buffer;
    while Break(rest) < |rest|
      invariant Fold(r, Lines(buffer), parse) == Fold(reply, Lines(rest), parse) && Tail(buffer) == Tail(rest)
      decreases |rest|
    {
      var nl := Break(rest);
      var line := rest[..nl];
      assert Lines(rest) == [line] + Lines(rest[nl + 1..]) && ([line] + Lines(rest[nl + 1..]))[1..] == Lines(rest[nl + 1..]);
      var handled := Handle(reply, line, parse);
      if handled.None? {
        return None, rest;
      }
      rest := rest[nl + 1..];
      reply := handled.value;
    }
    next := Some(reply);
  }

  /**
   aiStream: the result is a function of the concatenated pieces alone. A line still open at the end is
   not read.
   */
  method AiStream(chunks: seq<string>, parse: Parse) returns (result: Option<Reply>)
    ensures result == Fold(EMPTY, Lines(Join(chunks)), parse)
  {
    hide Fold;
    var reply, buf := EMPTY, "";
    assert Fold(EMPTY, Lines(""), parse) == Some(EMPTY) by { FoldNothing(parse); }
    for i := 0 to |chunks|
      invariant Fold(EMPTY, Lines(Join(chunks[..i])), parse) == Some(reply) && buf == Tail(Join(chunks[..i]))
    {
      var before := Join(chunks[..i]);
      assert chunks[..i + 1][..i] == chunks[..i];
      LinesGrow(before, chunks[i]);
      FoldSplits(EMPTY, Lines(before), Lines(buf + chunks[i]), parse);
      var drained, rest := Drain(reply, buf + chunks[i], parse);
      if drained.None? {
        Doomed(chunks, i + 1, parse);
        return None;
      }
      reply, buf := drained.value, rest;
    }
    assert chunks[..|chunks|] == chunks;
    result := Some(reply);
  }

  lemma FoldNothing(parse: Parse)
    ensures Fold(EMPTY, Lines(""), parse) == Some(EMPTY)
  {
  }

  /** Once a line has made the reader throw, what comes later does not matter. */
  lemma Doomed(chunks: seq<string>, n: nat, parse: Parse)
    requires n <= |chunks| && Fold(EMPTY, Lines(Join(chunks[..n])), parse) == None
    ensures Fold(EMPTY, Lines(Join(chunks)), parse) == None
  {
    hide Fold;
    JoinSplits(chunks[..n], chunks[n..]);
    assert chunks[..n] + chunks[n..] == chunks;
    var a, b := Join(chunks[..n]), Join(chunks[n..]);
    LinesGrow(a, b);
    FoldSplits(EMPTY, Lines(a), Lines(Tail(a) + b), parse);
  }

  // ----- what is assembled

  /** Every tool call of the lines, in order. */
  function ToolCalls(lines: seq<string>, parse: Parse): seq<ToolCall> {
    if lines == [] then [] else (if DataOf(lines[0], parse).Choice? then DataOf(lines[0], parse).calls else []) + ToolCalls(lines[1..], parse)
  }

  function Texts(lines: seq<string>, parse: Parse): string {
    if lines == [] then "" else (if DataOf(lines[0], parse).Choice? then DataOf(lines[0], parse).content else "") + Texts(lines[1..], parse)
  }

  function Reasonings(lines: seq<string>, parse: Parse): string {
    if lines == [] then "" else (if DataOf(lines[0], parse).Choice? then DataOf(lines[0], parse).reasoning else "") + Reasonings(lines[1..], parse)
  }

  lemma {:induction false} AddCallsSplits(calls: map<nat, Call>, a: seq<ToolCall>, b: seq<ToolCall>)
    ensures AddCalls(calls, a + b) == AddCalls(AddCalls(calls, a), b)
    decreases |b|
  {
    hide AddCall;
    if b == [] {
      assert a + b == a;
    } else {
      assert (a + b)[..|a + b| - 1] == a + b[..|b| - 1];
      AddCallsSplits(calls, a, b[..|b| - 1]);
    }
  }

  /** The reply is the concatenated content and reasoning, and the tool calls of all lines one after another. */
  lemma {:induction false} FoldCollects(r: Reply, lines: seq<string>, parse: Parse)
    requires Fold(r, lines, parse).Some?
    ensures Fold(r, lines, parse).value.text == r.text + Texts(lines, parse)
    ensures Fold(r, lines, parse).value.reasoning == r.reasoning + Reasonings(lines, parse)
    ensures Fold(r, lines, parse).value.calls == AddCalls(r.calls, ToolCalls(lines, parse))
    decreases |lines|
  {
    hide DataOf, AddCalls;
    if lines == [] {
      AddNone(r.calls);
    } else {
      var d := DataOf(lines[0], parse);
      FoldCollects(Take(r, d), lines[1..], parse);
      CollectStep(r, d, lines, parse);
    }
  }

  lemma CollectStep(r: Reply, d: Data, lines: seq<string>, parse: Parse)
    requires lines != [] && d == DataOf(lines[0], parse)
    ensures Take(r, d).text + Texts(lines[1..], parse) == r.text + Texts(lines, parse)
    ensures Take(r, d).reasoning + Reasonings(lines[1..], parse) == r.reasoning + Reasonings(lines, parse)
    ensures AddCalls(Take(r, d).calls, ToolCalls(lines[1..], parse)) == AddCalls(r.calls, ToolCalls(lines, parse))
  {
    hide DataOf, AddCalls;
    var text, why, calls := Texts(lines[1..], parse), Reasonings(lines[1..], parse), ToolCalls(lines[1..], parse);
    if d.Choice? {
      AddCallsSplits(r.calls, d.calls, calls);
      assert r.text + d.content + text == r.text + (d.content + text);
      assert r.reasoning + d.reasoning + why == r.reasoning + (d.reasoning + why);
    } else {
      assert "" + text == text && "" + why == why && [] + calls == calls;
    }
  }

  lemma AddNone(calls: map<nat, Call>)
    ensures AddCalls(calls, []) == calls
  {
  }

  /** The arguments streamed for one index, put together. */
  function ArgsFor(tcs: seq<ToolCall>, index: nat): string {
    if tcs == [] then "" else ArgsFor(tcs[..|tcs| - 1], index) + if tcs[|tcs| - 1].index == index then tcs[|tcs| - 1].args else ""
  }

  function NameFor(tcs: seq<ToolCall>, index: nat): string {
    if tcs == [] then "" else NameFor(tcs[..|tcs| - 1], index) + if tcs[|tcs| - 1].index == index then tcs[|tcs| - 1].name else ""
  }

  /** The id is the last one given for the index, if any was. */
  ghost predicate LastId(tcs: seq<ToolCall>, index: nat, id: string) {
    if id == "" then forall k :: 0 <= k < |tcs| && tcs[k].index == index ==> tcs[k].id == ""
    else exists k :: 0 <= k < |tcs| && GivesId(tcs, index, id, k)
  }

  predicate GivesId(tcs: seq<ToolCall>, index: nat, id: string, k: nat)
    requires k < |tcs|
  {
    tcs[k].index == index && tcs[k].id == id && forall m :: k < m < |tcs| && tcs[m].index == index ==> tcs[m].id == ""
  }

  /** Each tool call gets the pieces of its own index and no others, whatever calls are interleaved. */
  lemma {:induction false} CallsKeepApart(tcs: seq<ToolCall>, index: nat)
    ensures index in AddCalls(map[], tcs) <==> exists k :: 0 <= k < |tcs| && tcs[k].index == index
    ensures index in AddCalls(map[], tcs) ==>
      AddCalls(map[], tcs)[index].args == ArgsFor(tcs, index) && AddCalls(map[], tcs)[index].name == NameFor(tcs, index)
    ensures index in AddCalls(map[], tcs) ==> LastId(tcs, index, AddCalls(map[], tcs)[index].id)
    ensures index !in AddCalls(map[], tcs) ==> ArgsFor(tcs, index) == "" && NameFor(tcs, index) == ""
    decreases |tcs|
  {
    if tcs != [] {
      var before, last := tcs[..|tcs| - 1], tcs[|tcs| - 1];
      CallsKeepApart(before, index);
      assert forall k :: 0 <= k < |before| ==> before[k] == tcs[k];
      if last.index == index {
        assert index in AddCalls(map[], tcs);
      }
      if index in AddCalls(map[], tcs) { IdGrows(tcs, index); }
    }
  }

  lemma IdGrows(tcs: seq<ToolCall>, index: nat)
    requires tcs != [] && index in AddCalls(map[], tcs)
    requires var before := tcs[..|tcs| - 1];
      if index in AddCalls(map[], before) then LastId(before, index, AddCalls(map[], before)[index].id)
      else forall k :: 0 <= k < |before| ==> before[k].index != index
    ensures LastId(tcs, index, AddCalls(map[], tcs)[index].id)
  {
    var n := |tcs| - 1;
    var before, last, id := tcs[..n], tcs[n], AddCalls(map[], tcs)[index].id;
    if last.index == index && last.id != "" {
      assert GivesId(tcs, index, id, n);
    } else if id != "" {
      var k :| 0 <= k < n && GivesId(before, index, id, k);
      assert GivesId(tcs, index, id, k);
    }
  }
}
