/** Finding a quoted passage again: first as it stands, then with its white space collapsed. */
module CommentAnchor {
  import opened Joining
  import opened Options
  import opened Whitespace

  // ----- the text of a scope

  lemma JoinAt(nodes: seq<string>, i: nat)
    requires i < |nodes|
    ensures Join(nodes[..i + 1]) == Join(nodes[..i]) + nodes[i]
  {
    assert nodes[..i + 1][..i] == nodes[..i];
  }

  lemma JoinPrefix(nodes: seq<string>, i: nat)
    requires i <= |nodes|
    ensures |Join(nodes[..i])| <= |Join(nodes)| && Join(nodes[..i]) == Join(nodes)[..|Join(nodes[..i])|]
  {
    JoinSplits(nodes[..i], nodes[i..]);
    assert nodes == nodes[..i] + nodes[i..];
  }

  /** cmtTextIndex: the text nodes of a scope, where each starts, and the whole text. */
  datatype TextIndex = TextIndex(nodes: seq<string>, starts: seq<nat>, text: string)

  predicate Indexed(ix: TextIndex) {
    && |ix.starts| == |ix.nodes| && ix.text == Join(ix.nodes)
    && forall i :: 0 <= i < |ix.nodes| ==> ix.starts[i] == |Join(ix.nodes[..i])|
  }

  method CmtTextIndex(scope: seq<string>) returns (ix: TextIndex)
    ensures Indexed(ix) && ix.nodes == scope
  {
    var nodes: seq<string>, starts: seq<nat>, text := [], [], "";
    for n := 0 to |scope|
      invariant nodes == scope[..n] && |starts| == n && text == Join(nodes)
      invariant forall i :: 0 <= i < n ==> starts[i] == |Join(scope[..i])|
    {
      JoinAt(scope, n);
      nodes := nodes + [scope[n]];
      starts := starts + [|text|];
      text := text + scope[n];
    }
    assert nodes == scope;
    ix := TextIndex(nodes, starts, text);
  }

  // ----- collapsing white space

  function Plain(c: char): char {
    if Space(c) then ' ' else c
  }

  /** White space as one blank per run; a run right after a blank (or at the start) vanishes. */
  function Collapse(last: char, s: string): string
    decreases |s|
  {
    if s == "" then ""
    else if Plain(s[0]) == ' ' == last then Collapse(last, s[1..])
    else [Plain(s[0])] + Collapse(Plain(s[0]), s[1..])
  }

  /** Which characters of `s`, counted from `base`, Collapse keeps. */
  function Kept(last: char, s: string, base: nat): (kept: seq<nat>)
    ensures |kept| == |Collapse(last, s)|
    decreases |s|
  {
    hide Plain;
    if s == "" then []
    else if Plain(s[0]) == ' ' == last then Kept(last, s[1..], base + 1)
    else [base] + Kept(Plain(s[0]), s[1..], base + 1)
  }

  predicate Climbs(kept: seq<nat>, from: nat, to: nat) {
    && (forall k :: 0 <= k < |kept| ==> from <= kept[k] < to)
    && (forall j, k :: 0 <= j < k < |kept| ==> kept[j] < kept[k])
  }

  lemma {:induction false} KeptClimbs(last: char, s: string, base: nat)
    ensures Climbs(Kept(last, s, base), base, base + |s|)
    decreases |s|
  {
    hide Plain, Collapse;
    if s != "" {
      KeptClimbs(last, s[1..], base + 1);
      KeptClimbs(Plain(s[0]), s[1..], base + 1);
    }
  }

  function End(last: char, s: string): char {
    if s == "" then last else Plain(s[|s| - 1])
  }

  lemma {:induction false} CollapseSplits(last: char, a: string, b: string)
    ensures Collapse(last, a + b) == Collapse(last, a) + Collapse(End(last, a), b)
    decreases |a|
  {
    hide Plain;
    if a == "" {
      assert a + b == b;
    } else {
      assert (a + b)[0] == a[0] && (a + b)[1..] == a[1..] + b;
      CollapseSplits(Plain(a[0]), a[1..], b);
      assert End(Plain(a[0]), a[1..]) == End(last, a);
    }
  }

  lemma KeptStep(last: char, c: char, rest: string, base: nat)
    ensures Kept(last, [c] + rest, base) ==
      if Plain(c) == ' ' == last then Kept(last, rest, base + 1) else [base] + Kept(Plain(c), rest, base + 1)
  {
    hide Plain, Collapse;
    assert ([c] + rest)[0] == c && ([c] + rest)[1..] == rest;
  }

  lemma HeadAndRest(a: string, b: string)
    requires a != ""
    ensures [a[0]] + a[1..] == a && [a[0]] + (a[1..] + b) == a + b
  {
  }

  lemma {:induction false} KeptSplits(last: char, a: string, b: string, base: nat)
    ensures Kept(last, a + b, base) == Kept(last, a, base) + Kept(End(last, a), b, base + |a|)
    decreases |a|
  {
    hide Kept, Plain, Collapse;
    if a == "" {
      KeptNothing(last, b, base);
    } else {
      var c, next, e := Plain(a[0]), a[1..], End(last, a);
      assert End(c, next) == e;
      HeadAndRest(a, b);
      KeptStep(last, a[0], next, base);
      KeptStep(last, a[0], next + b, base);
      KeptSplits(c, next, b, base + 1);
      Assoc([base], Kept(c, next, base + 1), Kept(e, b, base + |a|));
    }
  }

  lemma KeptNothing(last: char, b: string, base: nat)
    ensures Kept(last, "" + b, base) == Kept(last, "", base) + Kept(last, b, base)
  {
    assert "" + b == b;
    assert [] + Kept(last, b, base) == Kept(last, b, base);
  }

  /** Text read on its own, as cmtNorm reads it. */
  function Norm(s: string): string {
    Collapse(' ', s)
  }

  /** Collapsing in context differs from collapsing alone by a leading blank at most. */
  function Unled(s: string): string {
    if s != "" && s[0] == ' ' then s[1..] else s
  }

  lemma {:induction false} NormUnleads(last: char, s: string)
    ensures Norm(s) == Unled(Collapse(last, s))
    ensures Norm(s) != "" ==> Norm(s)[0] != ' '
    decreases |s|
  {
    hide Plain;
    if s != "" {
      NormUnleads(' ', s[1..]);
      NormUnleads(Plain(s[0]), s[1..]);
    }
  }

  /** Cutting a text cuts what is kept of it. */
  lemma CutAt(s: string, n: nat)
    requires n <= |s|
    ensures |Norm(s[..n])| <= |Norm(s)| && Norm(s[..n]) == Norm(s)[..|Norm(s[..n])|]
    ensures forall k :: 0 <= k < |Norm(s)| ==> (Kept(' ', s, 0)[k] < n <==> k < |Norm(s[..n])|)
  {
    CollapseSplits(' ', s[..n], s[n..]);
    KeptClimbs(' ', s[..n], 0);
    KeptClimbs(End(' ', s[..n]), s[n..], n);
    KeptSplits(' ', s[..n], s[n..], 0);
    assert s[..n] + s[n..] == s;
  }

  /** The text between two cuts, collapsed in context. */
  lemma Between(s: string, a: nat, b: nat)
    requires a <= b <= |s|
    ensures |Norm(s[..a])| <= |Norm(s[..b])| <= |Norm(s)|
    ensures Norm(s)[|Norm(s[..a])|..|Norm(s[..b])|] == Collapse(End(' ', s[..a]), s[a..b])
  {
    CollapseSplits(' ', s[..a], s[a..b]);
    assert s[..a] + s[a..b] == s[..b];
    CutAt(s, b);
  }

  lemma KeptCut(s: string, k: nat)
    requires k < |Norm(s)|
    ensures Kept(' ', s, 0)[k] < |s| && |Norm(s[..Kept(' ', s, 0)[k]])| == k && |Norm(s[..Kept(' ', s, 0)[k] + 1])| == k + 1
  {
    var at := Kept(' ', s, 0)[k];
    KeptClimbs(' ', s, 0);
    CutAt(s, at);
    CutAt(s, at + 1);
    if k > 0 { assert Kept(' ', s, 0)[k - 1] < at; }
    if k + 1 < |Norm(s)| { assert Kept(' ', s, 0)[k + 1] >= at + 1; }
  }

  /** cmtNorm: the collapsed text and where each of its characters comes from. */
  method CmtNorm(text: string) returns (out: string, kept: seq<nat>)
    ensures out == Norm(text) && kept == Kept(' ', text, 0)
  {
    hide Norming, Space;
    out, kept := "", [];
    var last := ' ';
    NormStart(text);
    for i := 0 to |text|
      invariant Norming(out, kept, last, text, i)
    {
      NormStep(out, kept, last, text, i);
      var c := if Space(text[i]) then ' ' else text[i];
      if c == ' ' && last == ' ' {
        continue;
      }
      out := out + [c];
      kept := kept + [i];
      last := c;
    }
    NormEnd(out, kept, last, text);
  }

  /** What cmtNorm has at position `i`, with the rest to come. */
  predicate Norming(out: string, kept: seq<nat>, last: char, text: string, i: nat) {
    i <= |text| && out + Collapse(last, text[i..]) == Norm(text) && kept + Kept(last, text[i..], i) == Kept(' ', text, 0)
  }

  lemma NormStart(text: string)
    ensures Norming("", [], ' ', text, 0)
  {
    assert text[0..] == text;
  }

  lemma NormStep(out: string, kept: seq<nat>, last: char, text: string, i: nat)
    requires Norming(out, kept, last, text, i) && i < |text|
    ensures var c := Plain(text[i]);
      if c == ' ' == last then Norming(out, kept, last, text, i + 1)
      else Norming(out + [c], kept + [i], c, text, i + 1)
  {
    hide Space, Norm;
    var c, rest := Plain(text[i]), text[i + 1..];
    assert text[i..][0] == text[i] && text[i..][1..] == rest;
    if !(c == ' ' == last) {
      assert Collapse(last, text[i..]) == [c] + Collapse(c, rest);
      assert Kept(last, text[i..], i) == [i] + Kept(c, rest, i + 1);
      hide Collapse, Kept;
      assert (out + [c]) + Collapse(c, rest) == out + ([c] + Collapse(c, rest));
      assert (kept + [i]) + Kept(c, rest, i + 1) == kept + ([i] + Kept(c, rest, i + 1));
    }
  }

  lemma NormEnd(out: string, kept: seq<nat>, last: char, text: string)
    requires Norming(out, kept, last, text, |text|)
    ensures out == Norm(text) && kept == Kept(' ', text, 0)
  {
    assert text[|text|..] == "";
  }

  // ----- what collapsing means

  /** The runs of characters that are not white space. */
  function Words(s: string): seq<string> {
    if s == "" then []
    else if Space(s[0]) then Words(s[1..])
    else if |s| == 1 || Space(s[1]) then [[s[0]]] + Words(s[1..])
    else Glue(s[0], Words(s[1..]))
  }

  function Glue(c: char, words: seq<string>): seq<string> {
    if words == [] then [[c]] else [[c] + words[0]] + words[1..]
  }

  lemma {:induction false} CollapseKeepsWords(last: char, s: string)
    ensures Words(Collapse(last, s)) == Words(s)
    decreases |s|
  {
    if s != "" {
      var c := Plain(s[0]);
      CollapseKeepsWords(c, s[1..]);
      if !(c == ' ' == last) {
        var rest := Collapse(c, s[1..]);
        assert ([c] + rest)[1..] == rest;
        HeadCollapses(c, s[1..]);
      } else {
        CollapseKeepsWords(last, s[1..]);
      }
    }
  }

  /** After a character that is not a blank, the next one is kept, as itself or as a blank. */
  lemma HeadCollapses(last: char, s: string)
    ensures last != ' ' ==> (Collapse(last, s) == "" <==> s == "")
    ensures last != ' ' && s != "" ==> Collapse(last, s)[0] == Plain(s[0])
  {
  }

  lemma {:induction false} GapSkipped(gap: string, rest: string)
    requires forall i :: 0 <= i < |gap| ==> Space(gap[i])
    ensures Words(gap + rest) == Words(rest)
    decreases |gap|
  {
    hide Space;
    if gap == "" {
      assert gap + rest == rest;
    } else {
      assert (gap + rest)[1..] == gap[1..] + rest;
      GapSkipped(gap[1..], rest);
    }
  }

  /** The words of a text that starts with a word. */
  lemma {:induction false} WordsSplit(word: string, gap: string, rest: string)
    requires word != "" && (forall i :: 0 <= i < |word| ==> !Space(word[i])) && (forall i :: 0 <= i < |gap| ==> Space(gap[i]))
    requires gap == "" ==> rest == ""
    ensures Words(word + gap + rest) == [word] + Words(rest)
    decreases |word|
  {
    hide Space;
    var s, more := word + gap + rest, gap + rest;
    assert s == word + more;
    GapSkipped(gap, rest);
    if |word| == 1 {
      assert s[1..] == more && [s[0]] == word;
      assert |s| > 1 ==> s[1] == gap[0];
    } else {
      WordsSplit(word[1..], gap, rest);
      assert s[1..] == word[1..] + gap + rest && s[1] == word[1];
      assert [word[0]] + word[1..] == word;
    }
  }

  /** A kept character stays itself, or becomes a blank if it is white space. */
  lemma {:induction false} KeptAs(last: char, s: string, base: nat, i: nat)
    requires i < |Kept(last, s, base)|
    ensures var k := Kept(last, s, base)[i];
      base <= k < base + |s| && Collapse(last, s)[i] == if Space(s[k - base]) then ' ' else s[k - base]
    decreases |s|
  {
    hide Space;
    var c, rest := Plain(s[0]), s[1..];
    if c == ' ' == last {
      KeptAs(last, rest, base + 1, i);
    } else if i > 0 {
      KeptAs(c, rest, base + 1, i - 1);
    }
  }

  /** Kept is each character that is not white space, and the first of each run of white space but one at the start. */
  lemma {:induction false} KeptExactly(last: char, s: string, base: nat, p: nat)
    requires last == ' ' || !Space(last)
    ensures p in Kept(last, s, base) <==>
      base <= p < base + |s| && (!Space(s[p - base]) || if p == base then last != ' ' else !Space(s[p - base - 1]))
    decreases |s|
  {
    if s != "" {
      hide Space;
      var c, rest := Plain(s[0]), s[1..];
      BlankIsSpace(s[0]);
      if c == ' ' == last {
        KeptExactly(last, rest, base + 1, p);
      } else {
        KeptExactly(c, rest, base + 1, p);
        assert Kept(last, s, base) == [base] + Kept(c, rest, base + 1);
        assert Collapse(last, s) == [c] + Collapse(c, rest);
      }
    }
  }

  lemma BlankIsSpace(c: char)
    ensures Plain(c) == ' ' <==> Space(c)
    ensures !Space(c) ==> Plain(c) == c
  {
  }

  // ----- searching

  predicate OccursAt(hay: string, needle: string, at: int) {
    0 <= at <= |hay| - |needle| && hay[at..at + |needle|] == needle
  }

  predicate FirstAt(hay: string, needle: string, at: int) {
    OccursAt(hay, needle, at) && forall k :: 0 <= k < at ==> !OccursAt(hay, needle, k)
  }

  ghost predicate Occurs(hay: string, needle: string) {
    exists at :: OccursAt(hay, needle, at)
  }

  /** The library's indexOf. */
  method IndexOf(hay: string, needle: string) returns (at: int)
    ensures at == -1 || FirstAt(hay, needle, at)
    ensures at == -1 <==> !Occurs(hay, needle)
  {
    at := 0;
    while at + |needle| <= |hay|
      invariant at >= 0
      invariant forall k :: 0 <= k < at ==> !OccursAt(hay, needle, k)
    {
      if hay[at..at + |needle|] == needle {
        assert OccursAt(hay, needle, at);
        return;
      }
      at := at + 1;
    }
    at := -1;
  }

  // ----- ranges

  datatype Point = Point(node: nat, offset: nat)
  datatype DomRange = DomRange(start: Point, end: Point)

  predicate PointIn(nodes: seq<string>, p: Point) {
    p.node < |nodes| && p.offset <= |nodes[p.node]|
  }

  /** Where a point lies in the whole text. */
  function Offset(nodes: seq<string>, p: Point): nat
    requires PointIn(nodes, p)
  {
    |Join(nodes[..p.node])| + p.offset
  }

  predicate Ordered(nodes: seq<string>, r: DomRange) {
    && PointIn(nodes, r.start) && PointIn(nodes, r.end)
    && (r.start.node < r.end.node || (r.start.node == r.end.node && r.start.offset <= r.end.offset))
  }

  /** The text a range selects, as the DOM reads it node by node. */
  function RangeText(nodes: seq<string>, r: DomRange): string
    requires Ordered(nodes, r)
  {
    if r.start.node == r.end.node then nodes[r.start.node][r.start.offset..r.end.offset]
    else nodes[r.start.node][r.start.offset..] + Join(nodes[r.start.node + 1..r.end.node]) + nodes[r.end.node][..r.end.offset]
  }

  lemma OffsetIn(nodes: seq<string>, p: Point)
    requires PointIn(nodes, p)
    ensures Offset(nodes, p) <= |Join(nodes)|
    ensures Join(nodes)[..Offset(nodes, p)] == Join(nodes[..p.node]) + nodes[p.node][..p.offset]
  {
    JoinAt(nodes, p.node);
    JoinPrefix(nodes, p.node);
    JoinPrefix(nodes, p.node + 1);
  }

  lemma RangeIsSlice(nodes: seq<string>, r: DomRange)
    requires Ordered(nodes, r)
    ensures Offset(nodes, r.start) <= Offset(nodes, r.end) <= |Join(nodes)|
    ensures RangeText(nodes, r) == Join(nodes)[Offset(nodes, r.start)..Offset(nodes, r.end)]
  {
    hide Join;
    var a, b := r.start, r.end;
    OffsetIn(nodes, b);
    if a.node < b.node {
      RangeAcross(nodes, a, b);
    } else {
      SliceWithin(Join(nodes), Join(nodes[..a.node]), nodes[a.node], a.offset, b.offset);
    }
  }

  lemma RangeAcross(nodes: seq<string>, a: Point, b: Point)
    requires PointIn(nodes, a) && PointIn(nodes, b) && a.node < b.node
    ensures Offset(nodes, a) <= Offset(nodes, b) <= |Join(nodes)|
    ensures RangeText(nodes, DomRange(a, b)) == Join(nodes)[Offset(nodes, a)..Offset(nodes, b)]
  {
    hide Join;
    OffsetIn(nodes, b);
    MiddleOf(nodes, a.node, b.node);
    SliceAcross(Join(nodes), Join(nodes[..a.node]), nodes[a.node], Join(nodes[a.node + 1..b.node]), nodes[b.node][..b.offset], a.offset);
  }

  lemma MiddleOf(nodes: seq<string>, a: nat, b: nat)
    requires a < b < |nodes|
    ensures Join(nodes[..b]) == Join(nodes[..a]) + nodes[a] + Join(nodes[a + 1..b])
  {
    JoinAt(nodes, a);
    JoinSplits(nodes[..a + 1], nodes[a + 1..b]);
    assert nodes[..a + 1] + nodes[a + 1..b] == nodes[..b];
  }

  lemma SliceAcross(text: string, before: string, s: string, mid: string, e: string, from: nat)
    requires from <= |s| && |before + s + mid + e| <= |text| && text[..|before + s + mid + e|] == before + s + mid + e
    ensures text[|before| + from..|before + s + mid + e|] == s[from..] + mid + e
  {
    var p := text[..|before + s + mid + e|];
    assert p[|before| + from..] == s[from..] + mid + e;
  }

  lemma SliceWithin(text: string, before: string, s: string, from: nat, to: nat)
    requires from <= to <= |s| && |before| + to <= |text| && text[..|before| + to] == before + s[..to]
    ensures text[|before| + from..|before| + to] == s[from..to]
  {
    var p := text[..|before| + to];
    assert p[|before| + from..] == s[from..to];
  }

  /** The node and offset for a position in the text. */
  method PointAt(ix: TextIndex, off: nat) returns (p: Point)
    requires Indexed(ix) && ix.nodes != [] && off <= |ix.text|
    ensures PointIn(ix.nodes, p) && Offset(ix.nodes, p) == off
    ensures forall i :: p.node < i < |ix.nodes| ==> |Join(ix.nodes[..i])| > off
  {
    var i := |ix.starts| - 1;
    while i > 0 && ix.starts[i] > off
      invariant 0 <= i < |ix.starts|
      invariant forall k :: i < k < |ix.starts| ==> ix.starts[k] > off
    {
      i := i - 1;
    }
    JoinAt(ix.nodes, i);
    assert ix.nodes[..|ix.nodes|] == ix.nodes;
    assert i + 1 < |ix.nodes| ==> ix.starts[i + 1] == |Join(ix.nodes[..i + 1])|;
    p := Point(i, off - ix.starts[i]);
  }

  /** cmtRangeAt: the range that selects `text[start..end]`. */
  method CmtRangeAt(ix: TextIndex, start: nat, end: nat) returns (r: DomRange)
    requires Indexed(ix) && ix.nodes != [] && start <= end <= |ix.text|
    ensures Ordered(ix.nodes, r) && RangeText(ix.nodes, r) == ix.text[start..end]
    ensures Offset(ix.nodes, r.start) == start && Offset(ix.nodes, r.end) == end
  {
    var a := PointAt(ix, start);
    var b := PointAt(ix, end);
    if b.node < a.node {
      assert false;
    }
    r := DomRange(a, b);
    RangeIsSlice(ix.nodes, r);
  }

  // ----- the anchor

  datatype Anchor = Anchor(prefix: string, exact: string, suffix: string)

  function Want(a: Anchor): string {
    a.prefix + a.exact + a.suffix
  }

  /** What the quote adds to its collapsed prefix. */
  function Added(a: Anchor): string {
    Collapse(End(' ', a.prefix), a.exact)
  }

  /** The collapsed quote within the collapsed anchor. */
  lemma QuoteInWant(a: Anchor)
    ensures var w, i, j := Norm(Want(a)), |Norm(a.prefix)|, |Norm(a.prefix + a.exact)|;
      && i <= j <= |w| && w[i..j] == Added(a)
      && (forall k :: 0 <= k < |w| ==> (Kept(' ', Want(a), 0)[k] < |a.prefix| <==> k < i))
      && (forall k :: 0 <= k < |w| ==> (Kept(' ', Want(a), 0)[k] < |a.prefix| + |a.exact| <==> k < j))
  {
    var want, from := Want(a), |a.prefix|;
    var to := from + |a.exact|;
    assert want[..from] == a.prefix && want[..to] == a.prefix + a.exact && want[from..to] == a.exact;
    Between(want, from, to);
    CutAt(want, from);
    CutAt(want, to);
  }

  /** The characters selected for a collapsed match collapse to the quote's. */
  lemma SelectedReadsAlike(text: string, a: Anchor, at: nat)
    requires OccursAt(Norm(text), Norm(Want(a)), at) && Added(a) != ""
    ensures var i, j := |Norm(a.prefix)|, |Norm(a.prefix + a.exact)| - 1; var kept := Kept(' ', text, 0);
      && i <= j && at + j < |Norm(text)| && kept[at + i] <= kept[at + j] < |text|
      && Norm(text[kept[at + i]..kept[at + j] + 1]) == Norm(a.exact)
      && |Norm(text[..kept[at + i]])| == at + i
  {
    hide Collapse, Kept, End, Unled, Space, Plain;
    QuoteInWant(a);
    var w, i, j := Norm(Want(a)), |Norm(a.prefix)|, |Norm(a.prefix + a.exact)| - 1;
    var x, y := Kept(' ', text, 0)[at + i], Kept(' ', text, 0)[at + j];
    KeptClimbs(' ', text, 0);
    KeptCut(text, at + i);
    KeptCut(text, at + j);
    assert i == j || x < y;
    Between(text, x, y + 1);
    assert Norm(text)[at + i..at + j + 1] == Norm(text)[at..at + |w|][i..j + 1];
    NormUnleads(End(' ', text[..x]), text[x..y + 1]);
    NormUnleads(End(' ', a.prefix), a.exact);
  }

  /** cmtFind: where the quote is now, if it is still there. */
  method CmtFind(scope: seq<string>, a: Anchor) returns (found: Option<DomRange>)
    ensures var text := Join(scope);
      found.None? <==> scope == [] || (!Occurs(text, Want(a)) && (!Occurs(Norm(text), Norm(Want(a))) || Added(a) == ""))
    ensures found.Some? ==> Ordered(scope, found.value) && Norm(RangeText(scope, found.value)) == Norm(a.exact)
    ensures found.Some? && Occurs(Join(scope), Want(a)) ==>
      && RangeText(scope, found.value) == a.exact
      && FirstAt(Join(scope), Want(a), Offset(scope, found.value.start) - |a.prefix|)
    ensures found.Some? && !Occurs(Join(scope), Want(a)) ==>
      && Offset(scope, found.value.start) <= |Join(scope)|
      && FirstAt(Norm(Join(scope)), Norm(Want(a)), |Norm(Join(scope)[..Offset(scope, found.value.start)])| - |Norm(a.prefix)|)
  {
    hide Join, Collapse, Kept, End, Space, Plain, RangeText, Ordered, Added;
    var ix := CmtTextIndex(scope);
    if |ix.nodes| == 0 {
      return None;
    }
    var want := a.prefix + a.exact + a.suffix;
    var raw := IndexOf(ix.text, want);
    if raw >= 0 {
      RawSlice(ix.text, a, raw);
      var r := CmtRangeAt(ix, raw + |a.prefix|, raw + |a.prefix| + |a.exact|);
      return Some(r);
    }
    var hay, hayKept := CmtNorm(ix.text);
    var w, kept := CmtNorm(want);
    var at := IndexOf(hay, w);
    if at < 0 {
      return None;
    }
    var i, j := QuoteSpan(a, w, kept);
    if i > j {
      return None;
    }
    SelectedReadsAlike(ix.text, a, at);
    var r := CmtRangeAt(ix, hayKept[at + i], hayKept[at + j] + 1);
    found := Some(r);
  }

  lemma RawSlice(text: string, a: Anchor, raw: nat)
    requires OccursAt(text, Want(a), raw)
    ensures raw + |a.prefix| + |a.exact| <= |text| && text[raw + |a.prefix|..raw + |a.prefix| + |a.exact|] == a.exact
  {
    var w, from, to := Want(a), |a.prefix|, |a.prefix| + |a.exact|;
    SliceOfSlice(text, raw, raw + |w|, from, to);
    assert w[from..to] == a.exact;
  }

  lemma SliceOfSlice(s: string, a: nat, b: nat, from: nat, to: nat)
    requires a <= b <= |s| && from <= to <= b - a
    ensures s[a..b][from..to] == s[a + from..a + to]
  {
    forall k | 0 <= k < to - from
      ensures s[a..b][from..to][k] == s[a + from..a + to][k]
    {
      assert s[a..b][from + k] == s[a + from + k];
    }
  }

  /** The two loops of cmtFind: the first and last kept characters of the quote. */
  method QuoteSpan(a: Anchor, w: string, kept: seq<nat>) returns (i: int, j: int)
    requires w == Norm(Want(a)) && kept == Kept(' ', Want(a), 0)
    ensures i == |Norm(a.prefix)| && j == |Norm(a.prefix + a.exact)| - 1
    ensures i > j <==> Added(a) == ""
  {
    QuoteInWant(a);
    var from := |a.prefix|;
    var to := from + |a.exact|;
    i, j := 0, |w| - 1;
    while i < |w| && kept[i] < from
      invariant 0 <= i <= |Norm(a.prefix)|
    {
      i := i + 1;
    }
    while j >= 0 && kept[j] >= to
      invariant |Norm(a.prefix + a.exact)| - 1 <= j < |w|
    {
      j := j - 1;
    }
  }
}
