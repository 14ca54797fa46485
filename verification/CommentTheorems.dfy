/** What the comment fold promises about every set of records with distinct ids. */
module CommentTheorems {
  import opened CommentOrder
  import opened CommentForest
  import opened CommentFold

  /** `p` walks down the folded lists from a root to `id`. */
  predicate Reaches(f: Forest, p: seq<Id>, id: Id) {
    InForest(f.roots, f.replies, p) && Last(p) == id
  }

  /**
   The fold is a forest whatever the parent fields say: a comment is reached just when its parent chain
   ends at a root and it, or a comment below it, has a body; and then along one walk only.
   */
  lemma FoldIsForest(s: seq<Rec>, id: Id)
    requires DistinctIds(s)
    ensures (exists p :: Reaches(Folded(s), p, id)) <==> id in Folded(s).nodes && Rooted(GraphOf(s), id) && Alive(GraphOf(s), id)
    ensures forall p, q :: Reaches(Folded(s), p, id) && Reaches(Folded(s), q, id) ==> p == q
  {
    var g, f := GraphOf(s), Folded(s);
    EachInOneList(s);
    NodesOfGraph(s);
    assert f.roots == Keep(Roots(s, |s|), AliveSet(g)) && f.replies == PrunedReplies(g, Replies(s, |s|));
    hide *;
    PrunedIsForest(g, Roots(s, |s|), Replies(s, |s|), f, id);
  }

  lemma PrunedIsForest(g: Graph, roots: seq<Id>, lists: map<Id, seq<Id>>, f: Forest, id: Id)
    requires Valid(g) && Lists(g, roots, lists)
    requires f.roots == Keep(roots, AliveSet(g)) && f.replies == PrunedReplies(g, lists) && f.nodes.Keys == g.nodes
    ensures (exists p :: Reaches(f, p, id)) <==> id in f.nodes && Rooted(g, id) && Alive(g, id)
    ensures forall p, q :: Reaches(f, p, id) && Reaches(f, q, id) ==> p == q
  {
    hide Valid, Lists, AliveSet, Keep, PrunedReplies, Rooted, Alive;
    if id in f.nodes {
      ForestOfPruned(g, roots, lists, id);
      forall p | InForest(f.roots, f.replies, p) && Last(p) == id
        ensures Reaches(f, p, id)
      {
      }
    } else {
      forall p | Reaches(f, p, id)
        ensures false
      {
        ReachedIsAlive(g, roots, lists, p);
        AliveIsNode(g, id);
      }
    }
  }

  lemma AliveIsNode(g: Graph, id: Id)
    requires id in AliveSet(g)
    ensures id in g.nodes
  {
  }

  lemma NodesOfGraph(s: seq<Rec>)
    requires DistinctIds(s)
    ensures GraphOf(s).nodes == Folded(s).nodes.Keys
  {
  }

  lemma {:induction false} KeepApart(ids: seq<Id>, kept: set<Id>)
    requires NoRepeats(ids)
    ensures NoRepeats(Keep(ids, kept))
  {
    if ids != [] {
      KeepApart(ids[1..], kept);
      KeepIn(ids[1..], kept, ids[0]);
    }
  }

  /** No list of the fold names a comment twice. */
  lemma ListsApart(s: seq<Rec>)
    requires DistinctIds(s)
    ensures NoRepeats(Folded(s).roots)
    ensures forall p :: p in Folded(s).replies ==> NoRepeats(Folded(s).replies[p])
  {
    var g := GraphOf(s);
    EachInOneList(s);
    KeepApart(Roots(s, |s|), AliveSet(g));
    forall p | p in Replies(s, |s|)
      ensures NoRepeats(Folded(s).replies[p])
    {
      KeepApart(Replies(s, |s|)[p], AliveSet(g));
    }
  }

  /** The fold depends only on the set of records: any permutation folds alike. */
  lemma FoldIgnoresOrder(a: seq<Rec>, b: seq<Rec>)
    requires DistinctIds(a) && DistinctIds(b) && multiset(a) == multiset(b)
    ensures Sort(a) == Sort(b) && DistinctIds(Sort(a)) && Folded(Sort(a)) == Folded(Sort(b))
  {
    hide Less, Folded, Sort;
    SortSorts(a);
    SortSorts(b);
    SortedUnique(Sort(a), Sort(b));
  }

  // ----- edits

  /** Record `k` edits record `i`. */
  predicate Edits(s: seq<Rec>, k: nat, i: nat)
    requires k < |s| && i < |s|
  {
    IsEdit(s, k) && s[k].supersedes == s[i].id
  }

  /** The last edit of record `i` among the first `n` records is record `m`. */
  predicate LastEdit(s: seq<Rec>, n: nat, i: nat, m: nat)
    requires n <= |s| && i < |s|
  {
    m < n && Edits(s, m, i) && forall q :: m < q < n ==> !Edits(s, q, i)
  }

  lemma {:induction false} NextIsLast(s: seq<Rec>, n: nat, i: nat, k: nat)
    requires DistinctIds(s) && k < n <= |s| && i < |s| && Edits(s, k, i)
    ensures s[i].id in NextMap(s, n)
    ensures exists m: nat :: LastEdit(s, n, i, m) && NextMap(s, n)[s[i].id] == s[m].id
  {
    hide IsEdit;
    if Edits(s, n - 1, i) {
      assert LastEdit(s, n, i, n - 1) && NextMap(s, n)[s[i].id] == s[n - 1].id;
    } else {
      NextIsLast(s, n - 1, i, k);
      var m: nat :| LastEdit(s, n - 1, i, m) && NextMap(s, n - 1)[s[i].id] == s[m].id;
      assert LastEdit(s, n, i, m) && NextMap(s, n)[s[i].id] == s[m].id;
    }
  }

  /** A record with edits is followed by the last of them; an edit whose id is empty ends the chain instead. */
  lemma LastEditWins(s: seq<Rec>, i: nat, k: nat)
    requires DistinctIds(s) && i < |s| && k < |s| && Edits(s, k, i)
    ensures exists m: nat :: LastEdit(s, |s|, i, m) && Following(s, i) == if s[m].id != "" then m else i
  {
    NextIsLast(s, |s|, i, k);
    var m: nat :| LastEdit(s, |s|, i, m) && NextMap(s, |s|)[s[i].id] == s[m].id;
    IndexFinds(s, |s|);
    assert Following(s, i) == if s[m].id != "" then m else i;
  }

  /** Where a chain of edits ends, nothing edits any more, unless the last edit's id is empty. */
  lemma {:induction false} LatestIsLast(s: seq<Rec>, i: nat, k: nat)
    requires DistinctIds(s) && i < |s| && k < |s| && Edits(s, k, LatestAt(s, i))
    ensures exists m: nat :: LastEdit(s, |s|, LatestAt(s, i), m) && s[m].id == ""
    decreases |s| - i
  {
    hide IsEdit;
    if Following(s, i) > i {
      LatestIsLast(s, Following(s, i), k);
    } else {
      LastEditWins(s, i, k);
      var m: nat :| LastEdit(s, |s|, i, m) && Following(s, i) == if s[m].id != "" then m else i;
      assert m > i by { EditIsLater(s, m, i); }
    }
  }

  lemma EditIsLater(s: seq<Rec>, m: nat, i: nat)
    requires DistinctIds(s) && i < |s| && m < |s| && Edits(s, m, i)
    ensures m > i
  {
    IndexFinds(s, |s|);
  }

  /** A comment shows the text of one record: the end of its own chain of edits, and of no other comment's. */
  lemma ShowsOwnLatest(s: seq<Rec>, id: Id, other: Id)
    requires DistinctIds(s) && id in Folded(s).nodes && other in Folded(s).nodes && id != other
    ensures id in Index(s, |s|) && other in Index(s, |s|) && Index(s, |s|)[id] < |s| && Index(s, |s|)[other] < |s|
    ensures var i, j := Index(s, |s|)[id], Index(s, |s|)[other];
      && OnChain(s, i, LatestAt(s, i)) && !OnChain(s, j, LatestAt(s, i))
      && Folded(s).nodes[id].body == s[LatestAt(s, i)].body && Folded(s).nodes[id].rev == s[LatestAt(s, i)].rev
  {
    NodeRecord(s, id);
    NodeRecord(s, other);
    var i, j := Index(s, |s|)[id], Index(s, |s|)[other];
    assert !IsEdit(s, i) && !IsEdit(s, j);
    assert Folded(s).nodes[id] == NodeAt(s, i);
    hide Index, LatestAt, Nodes, IsEdit;
    LatestOnChain(s, i, i);
    if OnChain(s, j, LatestAt(s, i)) {
      ChainsApart(s, i, j, LatestAt(s, i));
    }
  }

  // ----- sizes

  /** The lists lead from each rooted node to children of it only. */
  ghost predicate Tidy(g: Graph, replies: map<Id, seq<Id>>) {
    && Valid(g) && replies.Keys == g.nodes
    && forall a, b :: HasReply(replies, a, b) && Rooted(g, a) ==> ChildOf(g, b, a)
  }

  predicate ChildOf(g: Graph, c: Id, p: Id) {
    c in g.parent && g.parent[c] == p
  }

  ghost predicate AllChildren(g: Graph, kids: seq<Id>, p: Id) {
    forall c :: c in kids ==> ChildOf(g, c, p)
  }

  /** cmtSize: how many comments a thread shows. */
  function CmtSize(replies: map<Id, seq<Id>>, id: Id, ghost g: Graph, ghost path: seq<Id>): nat
    requires Tidy(g, replies) && IsPath(g, path) && Last(path) == id
    decreases |g.nodes| - |path|, 1, 0
  {
    LastIsNode(g, path);
    assert forall c :: c in replies[id] ==> HasReply(replies, id, c);
    1 + Sizes(replies, replies[id], g, path)
  }

  function Sizes(replies: map<Id, seq<Id>>, kids: seq<Id>, ghost g: Graph, ghost path: seq<Id>): nat
    requires Tidy(g, replies) && IsPath(g, path) && AllChildren(g, kids, Last(path))
    decreases |g.nodes| - |path|, 0, |kids|
  {
    if kids == [] then 0
    else
      assert kids[0] in kids;
      ExtendPath(g, path, kids[0]);
      PathShort(g, path + [kids[0]]);
      CmtSize(replies, kids[0], g, path + [kids[0]]) + Sizes(replies, kids[1..], g, path)
  }

  /** The comments with a body, or one below them, at or below some of `tops`. */
  ghost function AliveBelow(g: Graph, tops: seq<Id>): set<Id> {
    set x | x in g.nodes && UnderSome(g, x, tops) && Alive(g, x)
  }

  /** After pruning, a thread's size is the number of comments in it that survive. */
  lemma {:induction false} SizeCountsAlive(g: Graph, roots: seq<Id>, original: map<Id, seq<Id>>, replies: map<Id, seq<Id>>, id: Id, path: seq<Id>)
    requires Valid(g) && Lists(g, roots, original) && replies == PrunedReplies(g, original) && Tidy(g, replies)
    requires IsPath(g, path) && Last(path) == id && Alive(g, id)
    ensures CmtSize(replies, id, g, path) == |AliveBelow(g, [id])|
    decreases |g.nodes| - |path|, 1, 0
  {
    hide Valid, Lists, PrunedReplies, Tidy, IsPath, Alive, Rooted, AliveBelow, AllChildren, Under;
    KidsOfPruned(g, roots, original, replies, id, path);
    SizesCountAlive(g, roots, original, replies, replies[id], path);
    BelowOne(g, roots, original, replies, id, path);
  }

  lemma {:induction false} SizesCountAlive(g: Graph, roots: seq<Id>, original: map<Id, seq<Id>>, replies: map<Id, seq<Id>>, kids: seq<Id>, path: seq<Id>)
    requires Valid(g) && Lists(g, roots, original) && replies == PrunedReplies(g, original) && Tidy(g, replies)
    requires IsPath(g, path) && AllChildren(g, kids, Last(path)) && NoRepeats(kids) && forall c :: c in kids ==> Alive(g, c)
    ensures Sizes(replies, kids, g, path) == |AliveBelow(g, kids)|
    decreases |g.nodes| - |path|, 0, |kids|
  {
    hide Valid, Lists, PrunedReplies, Tidy, IsPath, Alive, Rooted, Under;
    if kids == [] {
      assert AliveBelow(g, kids) == {};
    } else {
      assert kids[0] in kids;
      ExtendPath(g, path, kids[0]);
      PathShort(g, path + [kids[0]]);
      SizeCountsAlive(g, roots, original, replies, kids[0], path + [kids[0]]);
      SizesCountAlive(g, roots, original, replies, kids[1..], path);
      BelowSplits(g, kids, Last(path));
    }
  }

  lemma KidsOfPruned(g: Graph, roots: seq<Id>, original: map<Id, seq<Id>>, replies: map<Id, seq<Id>>, id: Id, path: seq<Id>)
    requires Valid(g) && Lists(g, roots, original) && replies == PrunedReplies(g, original)
    requires IsPath(g, path) && Last(path) == id
    ensures id in replies && Rooted(g, id) && AllChildren(g, replies[id], id) && NoRepeats(replies[id])
    ensures forall c :: c in replies[id] <==> ChildOf(g, c, id) && c in g.nodes && Alive(g, c)
  {
    LastIsNode(g, path);
    KeepApart(original[id], AliveSet(g));
    forall c
      ensures c in replies[id] <==> ChildOf(g, c, id) && c in g.nodes && Alive(g, c)
    {
      KeepIn(original[id], AliveSet(g), c);
    }
  }

  /** Below an alive node: itself, and what is below its alive children. */
  lemma BelowOne(g: Graph, roots: seq<Id>, original: map<Id, seq<Id>>, replies: map<Id, seq<Id>>, id: Id, path: seq<Id>)
    requires Valid(g) && Lists(g, roots, original) && replies == PrunedReplies(g, original)
    requires IsPath(g, path) && Last(path) == id && Alive(g, id) && id in replies
    ensures |AliveBelow(g, [id])| == 1 + |AliveBelow(g, replies[id])|
  {
    hide Lists, PrunedReplies, Alive, Rooted, IsPath, Under, Keep, AliveSet;
    KidsOfPruned(g, roots, original, replies, id, path);
    LastIsNode(g, path);
    UnderSelf(g, id);
    forall x
      ensures x in AliveBelow(g, [id]) <==> x == id || x in AliveBelow(g, replies[id])
      ensures id !in AliveBelow(g, replies[id])
    {
      BelowStep(g, replies[id], id, x);
      NotBelowKids(g, replies[id], id);
    }
    assert AliveBelow(g, [id]) == {id} + AliveBelow(g, replies[id]);
  }

  lemma BelowStep(g: Graph, kids: seq<Id>, id: Id, x: Id)
    requires Valid(g) && Rooted(g, id) && id in g.nodes && Alive(g, id) && Under(g, id, id)
    requires forall c :: c in kids <==> ChildOf(g, c, id) && c in g.nodes && Alive(g, c)
    ensures x in AliveBelow(g, [id]) <==> x == id || x in AliveBelow(g, kids)
  {
    hide Rooted, PathTo;
    assert id in [id];
    if x in AliveBelow(g, [id]) && x != id {
      assert Under(g, x, id);
      var c := UnderSplit(g, x, id);
      AliveUnder(g, x, c);
      assert c in kids;
    }
    if x in AliveBelow(g, kids) {
      var c :| c in kids && Under(g, x, c);
      UnderChild(g, x, c);
    }
  }

  /** What an alive node hangs off is alive. */
  lemma AliveUnder(g: Graph, x: Id, top: Id)
    requires Under(g, x, top) && Alive(g, x)
    ensures Alive(g, top)
  {
    var p := PathTo(g, x);
    var i :| 0 <= i < |p| && p[i] == top;
    AncestorAlive(g, x, i);
  }

  lemma NotBelowKids(g: Graph, kids: seq<Id>, id: Id)
    requires forall c :: c in kids ==> ChildOf(g, c, id)
    ensures !UnderSome(g, id, kids)
  {
    forall c | c in kids && Under(g, id, c)
      ensures false
    {
      var p := PathTo(g, id);
      var i :| 0 <= i < |p| && p[i] == c;
      assert i > 0 && p[i - 1] == id;
      PathDistinct(g, p, i - 1, |p| - 1);
    }
  }

  lemma BelowSplits(g: Graph, kids: seq<Id>, p: Id)
    requires kids != [] && NoRepeats(kids) && AllChildren(g, kids, p)
    ensures |AliveBelow(g, kids)| == |AliveBelow(g, [kids[0]])| + |AliveBelow(g, kids[1..])|
  {
    hide Under, Alive;
    assert kids == [kids[0]] + kids[1..];
    var a, b := AliveBelow(g, [kids[0]]), AliveBelow(g, kids[1..]);
    forall x
      ensures x in AliveBelow(g, kids) <==> x in a || x in b
      ensures !(x in a && x in b)
    {
      if x in a && x in b {
        var c :| c in kids[1..] && Under(g, x, c);
        assert kids[0] in kids && c in kids;
        ChildrenApart(g, x, kids[0], c);
      }
    }
    assert AliveBelow(g, kids) == a + b && a !! b;
  }

  /** The forest cmtFold returns has such lists, so cmtSize terminates on it from every root. */
  lemma FoldIsTidy(s: seq<Rec>)
    requires DistinctIds(s)
    ensures Tidy(GraphOf(s), Folded(s).replies)
  {
    var g := GraphOf(s);
    EachInOneList(s);
    hide GraphOf, Roots, Replies, Nodes, Alive, Rooted, AliveSet, NoRepeats, Keep;
    forall a, b | HasReply(Folded(s).replies, a, b) && Rooted(g, a)
      ensures ChildOf(g, b, a)
    {
      PrunedStep(g, Roots(s, |s|), Replies(s, |s|), a, b);
    }
  }
}
