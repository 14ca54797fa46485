/** What aiStream returns, read off the lines of the response and the payloads they carry. */
module StreamMeaning {
  import opened Joining
  import opened Options
  import opened Stream
  import opened Whitespace

  // ----- lines

  predicate OneLine(line: string) {
    forall i :: 0 <= i < |line| ==> line[i] != '\n'
  }

  /** The lines, each with its line feed. */
  function Written(lines: seq<string>): string
    decreases |lines|
  {
    if lines == [] then "" else lines[0] + "\n" + Written(lines[1..])
  }

  /** Lines come out of the buffer as they were written, and an open one stays in it. */
  lemma {:induction false} LinesOfWritten(lines: seq<string>, open: string)
    requires OneLine(open) && forall i :: 0 <= i < |lines| ==> OneLine(lines[i])
    ensures Lines(Written(lines) + open) == lines && Stream.Tail(Written(lines) + open) == open
    decreases |lines|
  {
    if lines == [] {
      assert Written(lines) + open == open;
      BreakIs(open, |open|);
    } else {
      var s := Written(lines) + open;
      assert s == lines[0] + "\n" + (Written(lines[1..]) + open);
      BreakIs(s, |lines[0]|);
      assert s[..|lines[0]|] == lines[0] && s[|lines[0]| + 1..] == Written(lines[1..]) + open;
      LinesOfWritten(lines[1..], open);
    }
  }

  // ----- data lines

  predicate Spaces(s: string) {
    forall i :: 0 <= i < |s| ==> Space(s[i])
  }

  /** Neither empty nor with white space at an end. */
  predicate Trimmed(s: string) {
    s != "" && !Space(s[0]) && !Space(s[|s| - 1])
  }

  /** The line is "data:" and the payload, with white space around both. */
  ghost predicate Carries(line: string, payload: string) {
    Trimmed(payload) && payload != "[DONE]"
    && exists lead, gap, trail :: Spaces(lead) && Spaces(gap) && Spaces(trail) && line == lead + "data:" + gap + payload + trail
  }

  lemma {:induction false} TrimIs(lead: string, core: string, trail: string)
    requires Spaces(lead) && Spaces(trail) && (core == "" || Trimmed(core))
    ensures Trim(lead + core + trail) == core
  {
    TrimStartIs(lead, core, trail);
    TrimEndIs(core, trail);
  }

  lemma {:induction false} TrimStartIs(lead: string, core: string, trail: string)
    requires Spaces(lead) && Spaces(trail) && (core == "" || Trimmed(core))
    ensures TrimStart(lead + core + trail) == if core == "" then "" else core + trail
    decreases |lead| + |trail|
  {
    hide Space;
    var s := lead + core + trail;
    if lead != "" {
      assert s[1..] == lead[1..] + core + trail;
      TrimStartIs(lead[1..], core, trail);
    } else if core == "" && trail != "" {
      assert s == trail && s[1..] == "" + core + trail[1..];
      TrimStartIs("", core, trail[1..]);
    } else {
      assert s == core + trail;
    }
  }

  lemma {:induction false} TrimEndIs(core: string, trail: string)
    requires Spaces(trail) && (core == "" || Trimmed(core))
    ensures TrimEnd(core + trail) == core && TrimEnd("") == ""
    decreases |trail|
  {
    hide Space;
    if trail != "" {
      assert (core + trail)[..|core + trail| - 1] == core + trail[..|trail| - 1];
      TrimEndIs(core, trail[..|trail| - 1]);
    } else {
      assert core + trail == core;
    }
  }

  /** Every text is a trimmed core between white space. */
  lemma {:induction false} Parts(s: string) returns (lead: string, trail: string)
    ensures Spaces(lead) && Spaces(trail) && s == lead + Trim(s) + trail && (Trim(s) == "" || Trimmed(Trim(s)))
  {
    lead := StartParts(s);
    trail := EndParts(TrimStart(s));
    var core := Trim(s);
    if core != "" {
      assert core[0] == TrimStart(s)[0];
    }
  }

  lemma {:induction false} StartParts(s: string) returns (lead: string)
    ensures Spaces(lead) && s == lead + TrimStart(s) && (TrimStart(s) == "" || !Space(TrimStart(s)[0]))
  {
    hide Space;
    lead := "";
    if s != "" && Space(s[0]) {
      var rest := StartParts(s[1..]);
      lead := [s[0]] + rest;
    }
  }

  lemma {:induction false} EndParts(s: string) returns (trail: string)
    ensures Spaces(trail) && s == TrimEnd(s) + trail && (TrimEnd(s) == "" || !Space(TrimEnd(s)[|TrimEnd(s)| - 1]))
  {
    hide Space;
    trail := "";
    if s != "" && Space(s[|s| - 1]) {
      var rest := EndParts(s[..|s| - 1]);
      trail := rest + [s[|s| - 1]];
    }
  }

  /** A line that carries a payload is what the parser makes of the payload; any other is nothing. */
  lemma DataMeans(line: string, parse: Parse)
    ensures forall payload :: Carries(line, payload) ==> DataOf(line, parse) == parse(payload)
    ensures (forall payload :: !Carries(line, payload)) ==> DataOf(line, parse) == NotJson
  {
    forall payload | Carries(line, payload)
      ensures DataOf(line, parse) == parse(payload)
    {
      CarriedIsData(line, payload, parse);
    }
    if DataOf(line, parse) != NotJson {
      var payload := DataIsCarried(line, parse);
    }
  }

  lemma CarriedIsData(line: string, payload: string, parse: Parse)
    requires Carries(line, payload)
    ensures DataOf(line, parse) == parse(payload)
  {
    var lead, gap, trail :| Spaces(lead) && Spaces(gap) && Spaces(trail) && line == lead + "data:" + gap + payload + trail;
    var core := "data:" + gap + payload;
    assert Trimmed(core) by { assert core[|core| - 1] == payload[|payload| - 1] && core[0] == 'd'; }
    assert line == lead + core + trail;
    TrimIs(lead, core, trail);
    assert core[..5] == "data:" && core[5..] == gap + payload == gap + payload + "";
    TrimIs(gap, payload, "");
    hide Trim, Trimmed;
  }

  lemma DataIsCarried(line: string, parse: Parse) returns (payload: string)
    requires DataOf(line, parse) != NotJson
    ensures Carries(line, payload)
  {
    var lead, trail := Parts(line);
    var core := Trim(line);
    var gap, rest := Parts(core[5..]);
    payload := Trim(core[5..]);
    hide Trim, Space;
    assert core == "data:" + core[5..];
    Regroup(lead, gap, payload, rest, trail);
    assert Spaces(rest + trail);
  }

  lemma Regroup(lead: string, gap: string, payload: string, rest: string, trail: string)
    ensures lead + ("data:" + (gap + payload + rest)) + trail == lead + "data:" + gap + payload + (rest + trail)
  {
  }

  // ----- the reply

  /** What each line yields: what the parser makes of its payload, or nothing. */
  ghost predicate Yields(lines: seq<string>, data: seq<Data>, parse: Parse) {
    |data| == |lines| && forall i :: 0 <= i < |lines| ==> YieldsOne(lines[i], data[i], parse)
  }

  ghost predicate YieldsOne(line: string, d: Data, parse: Parse) {
    && (forall payload :: Carries(line, payload) ==> d == parse(payload))
    && ((forall payload :: !Carries(line, payload)) ==> d == NotJson)
  }

  lemma YieldIsData(line: string, d: Data, parse: Parse)
    requires YieldsOne(line, d, parse)
    ensures d == DataOf(line, parse)
  {
    DataMeans(line, parse);
  }

  /** One text for each line: its own part of the content, or of the reasoning. */
  predicate Contents(data: seq<Data>, parts: seq<string>) {
    |parts| == |data| && forall i :: 0 <= i < |data| ==> parts[i] == if data[i].Choice? then data[i].content else ""
  }

  predicate Thoughts(data: seq<Data>, parts: seq<string>) {
    |parts| == |data| && forall i :: 0 <= i < |data| ==> parts[i] == if data[i].Choice? then data[i].reasoning else ""
  }

  /** `finish` is the last one that is not empty, if there is one. */
  ghost predicate LastFinish(data: seq<Data>, finish: Option<string>) {
    match finish
    case None => forall i :: 0 <= i < |data| && data[i].Choice? ==> data[i].finish == ""
    case Some(f) => exists i :: 0 <= i < |data| && EndsWith(data, f, i)
  }

  predicate EndsWith(data: seq<Data>, f: string, i: nat)
    requires i < |data|
  {
    data[i].Choice? && data[i].finish == f != "" && forall k :: i < k < |data| && data[k].Choice? ==> data[k].finish == ""
  }

  /** The tool calls of all lines, one after another. */
  function AllCalls(data: seq<Data>): seq<ToolCall> {
    if data == [] then [] else AllCalls(data[..|data| - 1]) + if data[|data| - 1].Choice? then data[|data| - 1].calls else []
  }

  /** The reply gathers all parts of the data. */
  ghost predicate Gathers(r: Reply, data: seq<Data>, contents: seq<string>, thoughts: seq<string>) {
    && r.text == Join(contents) && r.reasoning == Join(thoughts)
    && LastFinish(data, r.finish) && r.calls == AddCalls(map[], AllCalls(data))
  }

  lemma GathersMore(r: Reply, data: seq<Data>, contents: seq<string>, thoughts: seq<string>)
    requires data != [] && Contents(data, contents) && Thoughts(data, thoughts)
    requires var n := |data| - 1; Gathers(r, data[..n], contents[..n], thoughts[..n])
    ensures Gathers(Take(r, data[|data| - 1]), data, contents, thoughts)
  {
    var n := |data| - 1;
    var d := data[n];
    hide LastFinish, AddCalls;
    FinishGrows(data, r.finish);
    CallsGrow(r.calls, data);
    assert Join(contents) == Join(contents[..n]) + contents[n] && Join(thoughts) == Join(thoughts[..n]) + thoughts[n];
    hide Join, AllCalls;
    if !d.Choice? {
      assert r.text + "" == r.text && r.reasoning + "" == r.reasoning;
    }
  }

  lemma CallsGrow(calls: map<nat, Call>, data: seq<Data>)
    requires data != [] && calls == AddCalls(map[], AllCalls(data[..|data| - 1]))
    ensures var d := data[|data| - 1]; AddCalls(map[], AllCalls(data)) == if d.Choice? then AddCalls(calls, d.calls) else calls
  {
    var before, d := AllCalls(data[..|data| - 1]), data[|data| - 1];
    hide AddCalls;
    if d.Choice? {
      AddCallsSplits(map[], before, d.calls);
    } else {
      assert before + [] == before;
    }
  }

  lemma WithoutLast(lines: seq<string>, data: seq<Data>, parse: Parse, contents: seq<string>, thoughts: seq<string>)
    requires Yields(lines, data, parse) && Contents(data, contents) && Thoughts(data, thoughts) && lines != []
    ensures var n := |lines| - 1;
      && Yields(lines[..n], data[..n], parse) && Contents(data[..n], contents[..n]) && Thoughts(data[..n], thoughts[..n])
      && YieldsOne(lines[n], data[n], parse)
  {
    hide YieldsOne;
  }

  lemma NothingGathered(data: seq<Data>, contents: seq<string>, thoughts: seq<string>)
    requires data == [] && contents == [] && thoughts == []
    ensures Gathers(EMPTY, data, contents, thoughts)
  {
    AddNone(map[]);
  }

  predicate Readable(data: seq<Data>) {
    forall i :: 0 <= i < |data| ==> !data[i].Unusable?
  }

  lemma {:induction false} TakesAll(lines: seq<string>, data: seq<Data>, parse: Parse, contents: seq<string>, thoughts: seq<string>)
    requires Yields(lines, data, parse) && Contents(data, contents) && Thoughts(data, thoughts)
    ensures var result := Fold(EMPTY, lines, parse);
      (result.Some? <==> Readable(data)) && (result.Some? ==> Gathers(result.value, data, contents, thoughts))
    decreases |lines|
  {
    hide DataOf, Yields, YieldsOne, Gathers, Take;
    assert |data| == |lines| && |contents| == |lines| && |thoughts| == |lines| by { SameLength(lines, data, parse); }
    if lines == [] {
      NothingGathered(data, contents, thoughts);
    } else {
      var n := |lines| - 1;
      var front, last := lines[..n], lines[n];
      WithoutLast(lines, data, parse, contents, thoughts);
      TakesAll(front, data[..n], parse, contents[..n], thoughts[..n]);
      YieldIsData(last, data[n], parse);
      hide Contents, Thoughts, Fold;
      assert lines == front + [last] && data == data[..n] + [data[n]];
      FoldSplits(EMPTY, front, [last], parse);
      var before := Fold(EMPTY, front, parse);
      if before.Some? {
        FoldOne(before.value, last, parse);
        GathersMore(before.value, data, contents, thoughts);
      }
    }
  }

  lemma SameLength(lines: seq<string>, data: seq<Data>, parse: Parse)
    requires Yields(lines, data, parse)
    ensures |data| == |lines|
  {
  }

  lemma FoldOne(r: Reply, line: string, parse: Parse)
    ensures Fold(r, [line], parse) == if DataOf(line, parse).Unusable? then None else Some(Take(r, DataOf(line, parse)))
  {
    assert [line][1..] == [];
  }

  lemma FinishGrows(data: seq<Data>, finish: Option<string>)
    requires data != [] && LastFinish(data[..|data| - 1], finish)
    ensures var d := data[|data| - 1]; LastFinish(data, if d.Choice? && d.finish != "" then Some(d.finish) else finish)
  {
    var n := |data| - 1;
    if data[n].Choice? && data[n].finish != "" {
      assert EndsWith(data, data[n].finish, n);
    } else if finish.Some? {
      var i :| 0 <= i < n && EndsWith(data[..n], finish.value, i);
      assert EndsWith(data, finish.value, i);
    }
  }

  /**
   What aiStream returns for any response, however it was cut: nothing if a line makes it throw; else the parts
   of all its complete lines joined in order, and the last finish reason that is not empty.
   */
  lemma ReplyMeans(chunks: seq<string>, lines: seq<string>, open: string, data: seq<Data>, parse: Parse,
                   contents: seq<string>, thoughts: seq<string>)
    requires Join(chunks) == Written(lines) + open && OneLine(open) && forall i :: 0 <= i < |lines| ==> OneLine(lines[i])
    requires Yields(lines, data, parse) && Contents(data, contents) && Thoughts(data, thoughts)
    ensures var result := Fold(EMPTY, Lines(Join(chunks)), parse);
      && (result == None <==> exists i :: 0 <= i < |data| && data[i].Unusable?)
      && (result.Some? ==>
            && result.value.text == Join(contents) && result.value.reasoning == Join(thoughts)
            && LastFinish(data, result.value.finish) && result.value.calls == AddCalls(map[], AllCalls(data)))
  {
    LinesOfWritten(lines, open);
    TakesAll(lines, data, parse, contents, thoughts);
    hide Fold, Lines, Yields, LastFinish, AllCalls, AddCalls;
  }
}
