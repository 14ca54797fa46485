/**
 The fold read off the records' own fields: which records are comments, whose text each shows, and which
 walks lead from the roots to them.
 */
module CommentMeaning {
  import opened CommentOrder
  import opened CommentForest
  import opened CommentFold
  import opened CommentTheorems
  import opened Whitespace

  // ----- order

  /** One text comes before another if it is shorter and begins it, or is smaller where they first differ. */
  lemma {:induction false} LexMeans(a: string, b: string)
    ensures LexLess(a, b) <==> exists n :: 0 <= n <= |a| && n < |b| && a[..n] == b[..n] && (n == |a| || a[n] < b[n])
  {
    if a != "" && b != "" {
      LexMeans(a[1..], b[1..]);
      if a[0] == b[0] {
        if LexLess(a, b) {
          var n :| 0 <= n <= |a[1..]| && n < |b[1..]| && a[1..][..n] == b[1..][..n] && (n == |a[1..]| || a[1..][n] < b[1..][n]);
          assert a[..n + 1] == [a[0]] + a[1..][..n] && b[..n + 1] == [b[0]] + b[1..][..n];
        }
        forall n | 0 < n <= |a| && n < |b| && a[..n] == b[..n] && (n == |a| || a[n] < b[n])
          ensures LexLess(a, b)
        {
          assert a[1..][..n - 1] == a[..n][1..] && b[1..][..n - 1] == b[..n][1..];
        }
      } else {
        assert a[..0] == b[..0];
        forall n | 0 < n <= |a| && n < |b|
          ensures a[..n] != b[..n]
        {
          assert a[..n][0] == a[0] && b[..n][0] == b[0];
        }
      }
    }
  }

  /** Records are ordered by creation, and by id where they were created together. */
  lemma OrderMeans(a: Rec, b: Rec)
    ensures Less(a, b) <==> LexLess(a.createdAt, b.createdAt) || (a.createdAt == b.createdAt && LexLess(a.id, b.id))
  {
    LexTotal(a.createdAt, b.createdAt);
  }

  // ----- edits

  /** Record `k` comes after record `i` and supersedes it. */
  predicate EditOf(s: seq<Rec>, k: nat, i: nat) {
    i < k < |s| && s[k].supersedes != "" && s[k].supersedes == s[i].id
  }

  predicate LastEditOf(s: seq<Rec>, m: nat, i: nat) {
    EditOf(s, m, i) && forall k :: m < k < |s| ==> !EditOf(s, k, i)
  }

  /** Each record but the first is the last edit of the one before, and has an id. */
  predicate Revisions(s: seq<Rec>, c: seq<nat>) {
    c != [] && c[0] < |s| && forall q :: 0 < q < |c| ==> LastEditOf(s, c[q], c[q - 1]) && s[c[q]].id != ""
  }

  /** Comment `i` shows the text of record `h`: its revisions lead there and no further. */
  ghost predicate ShowsText(s: seq<Rec>, i: nat, h: nat) {
    h < |s| && (forall m: nat :: LastEditOf(s, m, h) ==> s[m].id == "")
    && exists c :: Revisions(s, c) && c[0] == i && c[|c| - 1] == h
  }

  lemma EditMeans(s: seq<Rec>, k: nat)
    requires DistinctIds(s) && k < |s|
    ensures IsEdit(s, k) <==> exists i: nat :: EditOf(s, k, i)
    ensures forall i: nat :: i < |s| ==> (Edits(s, k, i) <==> EditOf(s, k, i))
  {
    IndexFinds(s, |s|);
    if IsEdit(s, k) {
      assert EditOf(s, k, Index(s, |s|)[s[k].supersedes]);
    }
  }

  lemma FollowingMeans(s: seq<Rec>, i: nat, m: nat)
    requires DistinctIds(s) && i < |s|
    ensures LastEditOf(s, m, i) && s[m].id != "" <==> Following(s, i) == m && m > i
  {
    forall k: nat | k < |s| ensures Edits(s, k, i) <==> EditOf(s, k, i) { EditMeans(s, k); }
    if LastEditOf(s, m, i) {
      LastEditWins(s, i, m);
    }
    if Following(s, i) == m && m > i {
      LastEditWins(s, i, m);
      IndexFinds(s, |s|);
    }
  }

  lemma FirstRevision(s: seq<Rec>, c: seq<nat>)
    requires Revisions(s, c)
    ensures |c| > 1 ==> LastEditOf(s, c[1], c[0]) && s[c[1]].id != "" && Revisions(s, c[1..])
  {
  }

  /** A comment shows what its next revision shows. */
  lemma ShowsNext(s: seq<Rec>, i: nat, j: nat, h: nat)
    requires DistinctIds(s) && i < |s| && j < |s| && LastEditOf(s, j, i) && s[j].id != ""
    ensures ShowsText(s, i, h) <==> ShowsText(s, j, h)
  {
    if ShowsText(s, j, h) {
      var c :| Revisions(s, c) && c[0] == j && c[|c| - 1] == h;
      assert Revisions(s, [i] + c);
    }
    if ShowsText(s, i, h) {
      var c :| Revisions(s, c) && c[0] == i && c[|c| - 1] == h;
      FirstRevision(s, c);
      assert c[1..][|c| - 2] == h;
    }
  }

  /** The text a comment shows is found by following its revisions, and there is only one. */
  lemma {:induction false} LatestMeans(s: seq<Rec>, i: nat, h: nat)
    requires DistinctIds(s) && i < |s|
    ensures ShowsText(s, i, h) <==> LatestAt(s, i) == h
    decreases |s| - i
  {
    var j := Following(s, i);
    forall m: nat ensures LastEditOf(s, m, i) && s[m].id != "" <==> j == m && m > i { FollowingMeans(s, i, m); }
    if j > i {
      LatestMeans(s, j, h);
      hide ShowsText;
      ShowsNext(s, i, j, h);
    } else {
      hide LastEditOf;
      if ShowsText(s, i, h) {
        var c :| Revisions(s, c) && c[0] == i && c[|c| - 1] == h;
        FirstRevision(s, c);
      }
      assert Revisions(s, [i]);
    }
  }

  // ----- comments

  /** Record `i` is a comment: it edits nothing, and does not merely resolve. */
  ghost predicate IsComment(s: seq<Rec>, i: nat) {
    i < |s| && (forall j: nat :: !EditOf(s, i, j)) && (s[i].resolves == "" || s[i].body != "")
  }

  /** The text that comment `i` shows is not all white space. */
  ghost predicate HasText(s: seq<Rec>, i: nat) {
    exists h: nat :: ShowsText(s, i, h) && exists n :: 0 <= n < |s[h].body| && !Space(s[h].body[n])
  }

  /** Comment `i` answers comment `j`. */
  ghost predicate Answers(s: seq<Rec>, i: nat, j: nat) {
    i < |s| && IsComment(s, j) && s[i].parent != "" && s[i].parent == s[j].id
  }

  lemma CommentMeans(s: seq<Rec>, i: nat)
    requires DistinctIds(s) && i < |s|
    ensures IsComment(s, i) <==> Stands(s, i)
    ensures forall j: nat :: j < |s| && Stands(s, i) ==> (Answers(s, i, j) <==> s[i].id in GraphOf(s).parent && GraphOf(s).parent[s[i].id] == s[j].id)
    ensures Stands(s, i) ==> s[i].id in GraphOf(s).nodes && (HasText(s, i) <==> s[i].id !in GraphOf(s).gone)
  {
    EditMeans(s, i);
    if Stands(s, i) {
      RootOrKid(s, s[i].id, i);
      NodesAre(s, |s|);
      LatestMeans(s, i, LatestAt(s, i));
      forall j: nat | j < |s|
        ensures Answers(s, i, j) <==> HasParent(s, i) && s[i].parent == s[j].id
      {
        EditMeans(s, j);
        CommentKnown(s, j);
      }
      forall h: nat ensures ShowsText(s, i, h) <==> h == LatestAt(s, i) { LatestMeans(s, i, h); }
    }
  }

  lemma {:induction false} ResolvesMeans(s: seq<Rec>, n: nat, id: Id)
    requires n <= |s|
    ensures id in Resolves(s, n) <==> id != "" && exists j :: 0 <= j < n && s[j].resolves == id
  {
    if n > 0 {
      ResolvesMeans(s, n - 1, id);
    }
  }

  /** Every comment has a node, and there are no others. */
  lemma NodesMean(s: seq<Rec>, id: Id)
    requires DistinctIds(s)
    ensures id in Folded(s).nodes <==> exists i: nat :: IsComment(s, i) && s[i].id == id
  {
    NodesAre(s, |s|);
    forall i: nat | i < |s|
      ensures IsComment(s, i) <==> Stands(s, i)
    {
      CommentMeans(s, i);
    }
    hide IsComment, Stands, Nodes;
    if id in Nodes(s, |s|) {
      var i: nat :| CommentAt(s, |s|, id, i);
      assert IsComment(s, i) && s[i].id == id;
    }
    if i: nat :| IsComment(s, i) && s[i].id == id {
      CommentInRange(s, i);
    }
  }

  lemma CommentInRange(s: seq<Rec>, i: nat)
    requires IsComment(s, i)
    ensures i < |s|
  {
  }

  /**
   What a comment's node says: its own identity, time and anchor, its latest text with that text's author and
   revision, whether it was edited or withdrawn, and whether any record resolves it.
   */
  lemma NodeMeans(s: seq<Rec>, i: nat, h: nat)
    requires DistinctIds(s) && IsComment(s, i) && ShowsText(s, i, h)
    ensures s[i].id in Folded(s).nodes
    ensures var n, r, t := Folded(s).nodes[s[i].id], s[i], s[h];
      && n.id == r.id && n.createdAt == r.createdAt && n.anchor == r.anchor
      && n.body == t.body && n.author == t.author && n.rev == t.rev
      && (n.edited <==> h != i) && (n.gone <==> forall c :: 0 <= c < |t.body| ==> Space(t.body[c]))
      && (n.resolved <==> r.id != "" && exists j :: 0 <= j < |s| && s[j].resolves == r.id)
  {
    CommentMeans(s, i);
    NodesAre(s, |s|);
    LatestMeans(s, i, h);
    ResolvesMeans(s, |s|, s[i].id);
    hide Nodes, Resolves, GraphOf, LatestAt, IsEdit, ShowsText;
  }

  // ----- the forest

  /** Comments from one that answers none down to the last, each answering the one before. */
  ghost predicate Thread(s: seq<Rec>, w: seq<nat>) {
    && w != [] && (forall q :: 0 <= q < |w| ==> IsComment(s, w[q]))
    && (forall j: nat :: !Answers(s, w[0], j))
    && (forall q :: 0 < q < |w| ==> Answers(s, w[q], w[q - 1]))
  }

  /** `p` names the records at `w`. */
  predicate Names(s: seq<Rec>, w: seq<nat>, p: seq<Id>) {
    |p| == |w| && forall q :: 0 <= q < |w| ==> w[q] < |s| && s[w[q]].id == p[q]
  }

  lemma PlaceMeans(s: seq<Rec>, w: seq<nat>, p: seq<Id>, q: nat)
    requires DistinctIds(s) && Names(s, w, p) && q < |w|
    ensures IsComment(s, w[q]) <==> p[q] in GraphOf(s).nodes
    ensures IsComment(s, w[q]) && q > 0 ==>
      (Answers(s, w[q], w[q - 1]) <==> p[q] in GraphOf(s).parent && GraphOf(s).parent[p[q]] == p[q - 1])
  {
    CommentMeans(s, w[q]);
    CommentKnown(s, w[q]);
    hide IsComment, Answers;
  }

  lemma ThreadIsPath(s: seq<Rec>, w: seq<nat>, p: seq<Id>)
    requires DistinctIds(s) && Names(s, w, p)
    ensures Thread(s, w) <==> IsPath(GraphOf(s), p)
  {
    var g := GraphOf(s);
    EachInOneList(s);
    hide GraphOf, IsComment, Answers, Lists;
    if Thread(s, w) {
      RootMeans(s, w[0]);
      PlaceMeans(s, w, p, 0);
      forall q | 0 < q < |p|
        ensures p[q] in g.parent && g.parent[p[q]] == p[q - 1]
      {
        assert IsComment(s, w[q]) && Answers(s, w[q], w[q - 1]);
        PlaceMeans(s, w, p, q);
      }
    }
    if IsPath(g, p) {
      forall q | 0 <= q < |w|
        ensures IsComment(s, w[q]) && (q > 0 ==> Answers(s, w[q], w[q - 1]))
      {
        assert p[q] in g.nodes && (q > 0 ==> p[q] in g.parent && g.parent[p[q]] == p[q - 1]);
        PlaceMeans(s, w, p, q);
      }
      RootMeans(s, w[0]);
    }
  }

  lemma RootMeans(s: seq<Rec>, i: nat)
    requires DistinctIds(s) && i < |s| && IsComment(s, i)
    ensures s[i].id !in GraphOf(s).parent <==> forall j: nat :: !Answers(s, i, j)
  {
    CommentMeans(s, i);
    if s[i].id in GraphOf(s).parent {
      NodeRecord(s, GraphOf(s).parent[s[i].id]);
    }
  }

  /** The records that a walk names. */
  lemma {:induction false} RecordsOf(s: seq<Rec>, p: seq<Id>) returns (w: seq<nat>)
    requires DistinctIds(s) && forall q :: 0 <= q < |p| ==> p[q] in Nodes(s, |s|)
    ensures Names(s, w, p)
  {
    if p == [] {
      w := [];
    } else {
      var v := RecordsOf(s, p[..|p| - 1]);
      NodeRecord(s, p[|p| - 1]);
      w := v + [Index(s, |s|)[p[|p| - 1]]];
    }
  }

  lemma {:induction false} IdsOf(s: seq<Rec>, w: seq<nat>) returns (p: seq<Id>)
    requires forall q :: 0 <= q < |w| ==> w[q] < |s|
    ensures Names(s, w, p)
  {
    if w == [] {
      p := [];
    } else {
      var front := IdsOf(s, w[..|w| - 1]);
      p := front + [s[w[|w| - 1]].id];
    }
  }

  /** Comment `w` ends at, or one further down its thread, shows some text. */
  ghost predicate LeadsToText(s: seq<Rec>, w: seq<nat>) {
    exists x: seq<nat> :: Thread(s, w + x) && HasText(s, (w + x)[|w + x| - 1])
  }

  /** From an alive node a walk goes on to one with a body. */
  lemma AliveWalk(g: Graph, p: seq<Id>) returns (full: seq<Id>)
    requires IsPath(g, p) && Alive(g, Last(p))
    ensures IsPath(g, full) && p <= full && Last(full) !in g.gone
  {
    PathStarts(g, p);
    var y :| Under(g, y, Last(p)) && y !in g.gone;
    full := PathTo(g, y);
    var j :| 0 <= j < |full| && full[j] == Last(p);
    PrefixPath(g, full, j + 1);
    assert Last(full[..j + 1]) == Last(p);
    PathUnique(g, p, full[..j + 1]);
  }

  lemma TextBelow(s: seq<Rec>, w: seq<nat>, p: seq<Id>, full: seq<Id>)
    requires DistinctIds(s) && IsPath(GraphOf(s), full) && Names(s, w, p) && p != [] && p <= full
    requires Last(full) !in GraphOf(s).gone
    ensures LeadsToText(s, w)
  {
    hide GraphOf, Nodes, Thread, HasText, IsPath, LeadsToText;
    PathKnown(s, full);
    var v := RecordsOf(s, full);
    var x := v[|p|..];
    SameRecords(s, w, v, p, full);
    assert w + x == v;
    ThreadIsPath(s, v, full);
    LastHasText(s, v, full);
    LeadsBy(s, w, x);
  }

  lemma LeadsBy(s: seq<Rec>, w: seq<nat>, x: seq<nat>)
    requires Thread(s, w + x) && HasText(s, (w + x)[|w + x| - 1])
    ensures LeadsToText(s, w)
  {
  }

  lemma PathKnown(s: seq<Rec>, p: seq<Id>)
    requires DistinctIds(s) && IsPath(GraphOf(s), p)
    ensures forall q :: 0 <= q < |p| ==> p[q] in Nodes(s, |s|)
  {
    EachInOneList(s);
    hide Lists, Nodes;
  }

  lemma SameRecords(s: seq<Rec>, w: seq<nat>, v: seq<nat>, p: seq<Id>, full: seq<Id>)
    requires DistinctIds(s) && Names(s, w, p) && Names(s, v, full) && p <= full
    ensures v[..|p|] == w
  {
    forall q | 0 <= q < |p|
      ensures v[q] == w[q]
    {
      assert s[v[q]].id == full[q] == p[q] == s[w[q]].id;
    }
  }

  lemma LastHasText(s: seq<Rec>, w: seq<nat>, p: seq<Id>)
    requires DistinctIds(s) && Names(s, w, p) && Thread(s, w)
    ensures HasText(s, w[|w| - 1]) <==> Last(p) !in GraphOf(s).gone
  {
    CommentMeans(s, w[|w| - 1]);
  }

  lemma TextKeeps(s: seq<Rec>, w: seq<nat>, x: seq<nat>, p: seq<Id>)
    requires DistinctIds(s) && Names(s, w, p) && p != [] && Thread(s, w + x) && HasText(s, (w + x)[|w + x| - 1])
    ensures IsPath(GraphOf(s), p) && Alive(GraphOf(s), Last(p))
  {
    var g, v := GraphOf(s), w + x;
    assert forall q :: 0 <= q < |v| ==> IsComment(s, v[q]);
    var full := IdsOf(s, v);
    assert p == full[..|p|];
    hide GraphOf, Thread, HasText, IsPath;
    ThreadIsPath(s, v, full);
    LastHasText(s, v, full);
    hide Names;
    PrefixPath(g, full, |full|);
    PrefixPath(g, full, |p|);
    assert full[..|full|] == full;
    assert full[|p| - 1] in PathTo(g, Last(full));
    assert Under(g, Last(full), Last(p));
  }

  lemma TextIsPath(s: seq<Rec>, w: seq<nat>, p: seq<Id>)
    requires DistinctIds(s) && Names(s, w, p) && p != [] && LeadsToText(s, w)
    ensures IsPath(GraphOf(s), p) && Alive(GraphOf(s), Last(p))
  {
    var x: seq<nat> :| Thread(s, w + x) && HasText(s, (w + x)[|w + x| - 1]);
    TextKeeps(s, w, x, p);
  }

  /** Whether a comment stays: it, or one below it, shows some text. */
  lemma AliveMeans(s: seq<Rec>, w: seq<nat>, p: seq<Id>)
    requires DistinctIds(s) && IsPath(GraphOf(s), p) && Names(s, w, p)
    ensures Alive(GraphOf(s), Last(p)) <==> LeadsToText(s, w)
  {
    PathStarts(GraphOf(s), p);
    hide GraphOf, Names, IsPath, Alive, LeadsToText;
    if Alive(GraphOf(s), Last(p)) {
      var full := AliveWalk(GraphOf(s), p);
      TextBelow(s, w, p, full);
    }
    if LeadsToText(s, w) { TextIsPath(s, w, p); }
  }

  lemma PathsOfPruned(g: Graph, roots: seq<Id>, lists: map<Id, seq<Id>>, p: seq<Id>)
    requires Valid(g) && Lists(g, roots, lists)
    ensures InForest(Keep(roots, AliveSet(g)), PrunedReplies(g, lists), p) <==> IsPath(g, p) && Alive(g, Last(p))
  {
    hide Keep, PrunedReplies, InForest, Lists, Alive;
    if InForest(Keep(roots, AliveSet(g)), PrunedReplies(g, lists), p) {
      ReachedIsAlive(g, roots, lists, p);
    }
    if IsPath(g, p) && Alive(g, Last(p)) {
      PrefixPath(g, p, |p|);
      assert p[..|p|] == p;
      AliveIsReached(g, roots, lists, Last(p));
    }
  }

  /**
   The forest that cmtFold returns, read off the records: its walks are exactly the threads of comments that
   show some text, or lead down to a comment that does.
   */
  lemma ShownExactly(s: seq<Rec>, p: seq<Id>)
    requires DistinctIds(s)
    ensures InForest(Folded(s).roots, Folded(s).replies, p) <==> p != [] && exists w: seq<nat> :: Names(s, w, p) && LeadsToText(s, w)
  {
    var g := GraphOf(s);
    EachInOneList(s);
    FoldedIs(s);
    hide Folded, GraphOf, Nodes, Roots, Replies, Lists, IsPath, InForest, LeadsToText, Keep, PrunedReplies, AliveSet, Valid, Alive;
    PathsOfPruned(g, Roots(s, |s|), Replies(s, |s|), p);
    if IsPath(g, p) {
      PathKnown(s, p);
      var w := RecordsOf(s, p);
      AliveMeans(s, w, p);
      PathStarts(g, p);
    }
    if w: seq<nat> :| p != [] && Names(s, w, p) && LeadsToText(s, w) {
      TextIsPath(s, w, p);
      AliveMeans(s, w, p);
    }
  }

  lemma PathStarts(g: Graph, p: seq<Id>)
    requires IsPath(g, p)
    ensures p != []
  {
  }

  lemma FoldedIs(s: seq<Rec>)
    requires DistinctIds(s)
    ensures Folded(s).roots == Keep(Roots(s, |s|), AliveSet(GraphOf(s)))
    ensures Folded(s).replies == PrunedReplies(GraphOf(s), Replies(s, |s|))
  {
  }

  // ----- lists

  /** Some record with id `x` comes before one with id `y`. */
  ghost predicate Precedes(s: seq<Rec>, x: Id, y: Id) {
    exists i, j :: 0 <= i < j < |s| && s[i].id == x && s[j].id == y
  }

  ghost predicate InOrder(s: seq<Rec>, ids: seq<Id>) {
    forall a, b :: 0 <= a < b < |ids| ==> Precedes(s, ids[a], ids[b])
  }

  lemma {:induction false} RootsInOrder(s: seq<Rec>, n: nat)
    requires DistinctIds(s) && n <= |s|
    ensures InOrder(s, Roots(s, n)) && forall a :: 0 <= a < |Roots(s, n)| ==> exists i :: 0 <= i < n && s[i].id == Roots(s, n)[a]
  {
    hide Stands, HasParent;
    if n > 0 {
      RootsInOrder(s, n - 1);
    }
  }

  lemma {:induction false} KidsInOrder(s: seq<Rec>, p: Id, n: nat)
    requires DistinctIds(s) && n <= |s|
    ensures InOrder(s, Kids(s, p, n)) && forall a :: 0 <= a < |Kids(s, p, n)| ==> exists i :: 0 <= i < n && s[i].id == Kids(s, p, n)[a]
  {
    hide Stands, HasParent;
    if n > 0 {
      KidsInOrder(s, p, n - 1);
    }
  }

  lemma {:induction false} KeepInOrder(s: seq<Rec>, ids: seq<Id>, kept: set<Id>)
    requires InOrder(s, ids)
    ensures InOrder(s, Keep(ids, kept))
  {
    hide Precedes;
    if ids != [] {
      var rest := Keep(ids[1..], kept);
      KeepInOrder(s, ids[1..], kept);
      forall b | 0 <= b < |rest|
        ensures Precedes(s, ids[0], rest[b])
      {
        KeepIn(ids[1..], kept, rest[b]);
        var c :| 0 <= c < |ids[1..]| && ids[1..][c] == rest[b];
        assert Precedes(s, ids[0], ids[c + 1]);
      }
    }
  }

  /** Comments of one list come in the order of creation. */
  lemma ListsInOrder(s: seq<Rec>)
    requires DistinctIds(s)
    ensures InOrder(s, Folded(s).roots) && forall p :: p in Folded(s).replies ==> InOrder(s, Folded(s).replies[p])
  {
    FoldedIs(s);
    hide Folded, Keep, InOrder, AliveSet, Rooted;
    RootsInOrder(s, |s|);
    KeepInOrder(s, Roots(s, |s|), AliveSet(GraphOf(s)));
    forall p | p in Replies(s, |s|)
      ensures InOrder(s, PrunedReplies(GraphOf(s), Replies(s, |s|))[p])
    {
      KidsInOrder(s, p, |s|);
      KeepInOrder(s, Kids(s, p, |s|), AliveSet(GraphOf(s)));
    }
  }
}
