/**
 A set of nodes with a parent link each, as nested `replies` lists: which nodes hang off the roots, and
 what pruning keeps of them. Parent links may form cycles; those nodes hang off no root.
 */
module CommentForest {
  type Id = string

  /** `parent` maps a node to its parent node; a node without one is a root. */
  datatype Graph = Graph(nodes: set<Id>, parent: map<Id, Id>, gone: set<Id>)

  predicate Valid(g: Graph) {
    g.parent.Keys <= g.nodes && forall x :: x in g.parent ==> g.parent[x] in g.nodes
  }

  /** A walk from a root down to its last node. */
  predicate IsPath(g: Graph, p: seq<Id>) {
    && p != [] && p[0] in g.nodes && p[0] !in g.parent
    && forall i :: 0 < i < |p| ==> p[i] in g.parent && g.parent[p[i]] == p[i - 1]
  }

  function Last(p: seq<Id>): Id
    requires p != []
  {
    p[|p| - 1]
  }

  ghost predicate Rooted(g: Graph, x: Id) {
    exists p :: IsPath(g, p) && Last(p) == x
  }

  lemma {:induction false} PathUnique(g: Graph, p: seq<Id>, q: seq<Id>)
    requires IsPath(g, p) && IsPath(g, q) && Last(p) == Last(q)
    ensures p == q
  {
    if |p| > 1 && |q| > 1 {
      PathUnique(g, p[..|p| - 1], q[..|q| - 1]);
      assert p == p[..|p| - 1] + [Last(p)] && q == q[..|q| - 1] + [Last(q)];
    }
  }

  lemma PathDistinct(g: Graph, p: seq<Id>, i: nat, j: nat)
    requires IsPath(g, p) && i < j < |p|
    ensures p[i] != p[j]
  {
    if p[i] == p[j] {
      PathUnique(g, p[..i + 1], p[..j + 1]);
      assert false;
    }
  }

  lemma {:induction false} PathNodes(g: Graph, p: seq<Id>, n: nat)
    requires Valid(g) && IsPath(g, p) && n <= |p|
    ensures (set i | 0 <= i < n :: p[i]) <= g.nodes && |set i | 0 <= i < n :: p[i]| == n
  {
    var s := set i | 0 <= i < n :: p[i];
    if n == 0 {
      assert s == {};
    } else {
      PathNodes(g, p, n - 1);
      var r := set i | 0 <= i < n - 1 :: p[i];
      assert s == r + {p[n - 1]};
      assert p[n - 1] in g.nodes;
      forall i | 0 <= i < n - 1 ensures p[i] != p[n - 1] { PathDistinct(g, p, i, n - 1); }
    }
  }

  lemma SubsetSize(a: set<Id>, b: set<Id>)
    requires a <= b
    ensures |a| <= |b|
  {
    assert b == a + (b - a);
  }

  /** No walk is longer than there are nodes, which is what makes pruning terminate. */
  lemma PathShort(g: Graph, p: seq<Id>)
    requires Valid(g) && IsPath(g, p)
    ensures |p| <= |g.nodes|
  {
    PathNodes(g, p, |p|);
    SubsetSize(set i | 0 <= i < |p| :: p[i], g.nodes);
  }

  /** The walk to `x`. */
  ghost function PathTo(g: Graph, x: Id): (p: seq<Id>)
    requires Rooted(g, x)
    ensures IsPath(g, p) && Last(p) == x
  {
    var p :| IsPath(g, p) && Last(p) == x;
    p
  }

  /** `x` hangs off `top`, or is it. */
  ghost predicate Under(g: Graph, x: Id, top: Id) {
    Rooted(g, x) && top in PathTo(g, x)
  }

  /** `x` or something that hangs off it has a body. */
  ghost predicate Alive(g: Graph, x: Id) {
    exists y :: Under(g, y, x) && y !in g.gone
  }

  lemma PrefixPath(g: Graph, p: seq<Id>, n: nat)
    requires IsPath(g, p) && 0 < n <= |p|
    ensures IsPath(g, p[..n]) && Rooted(g, p[n - 1]) && PathTo(g, p[n - 1]) == p[..n]
  {
    assert Last(p[..n]) == p[n - 1];
    PathUnique(g, PathTo(g, p[n - 1]), p[..n]);
  }

  lemma ExtendPath(g: Graph, p: seq<Id>, x: Id)
    requires IsPath(g, p) && x in g.parent && g.parent[x] == Last(p)
    ensures IsPath(g, p + [x]) && Rooted(g, x) && PathTo(g, x) == p + [x]
  {
    assert IsPath(g, p + [x]) && Last(p + [x]) == x;
    PathUnique(g, PathTo(g, x), p + [x]);
  }

  lemma UnderSelf(g: Graph, x: Id)
    requires Rooted(g, x)
    ensures Under(g, x, x)
  {
    assert Last(PathTo(g, x)) in PathTo(g, x);
  }

  /** Whatever hangs off a child hangs off its parent. */
  lemma UnderChild(g: Graph, x: Id, child: Id)
    requires Under(g, x, child) && child in g.parent
    ensures Under(g, x, g.parent[child])
  {
    var p := PathTo(g, x);
    var i :| 0 <= i < |p| && p[i] == child;
    assert i > 0;
    assert p[i - 1] == g.parent[child];
  }

  /** Whatever hangs off `top`, other than `top`, hangs off exactly one of its children. */
  lemma UnderSplit(g: Graph, x: Id, top: Id) returns (child: Id)
    requires Under(g, x, top) && x != top
    ensures child in g.parent && g.parent[child] == top && Under(g, x, child)
  {
    var p := PathTo(g, x);
    var i :| 0 <= i < |p| && p[i] == top;
    child := p[i + 1];
  }

  lemma ChildrenApart(g: Graph, x: Id, a: Id, b: Id)
    requires Under(g, x, a) && Under(g, x, b) && a in g.parent && b in g.parent && g.parent[a] == g.parent[b]
    ensures a == b
  {
    var p := PathTo(g, x);
    var i :| 0 <= i < |p| && p[i] == a;
    var j :| 0 <= j < |p| && p[j] == b;
    assert i > 0 && j > 0 && p[i - 1] == p[j - 1];
    if i < j { PathDistinct(g, p, i - 1, j - 1); }
    if j < i { PathDistinct(g, p, j - 1, i - 1); }
  }

  /** A rooted node is alive just when it has a body or one of its children is alive. */
  lemma AliveStep(g: Graph, x: Id)
    requires Rooted(g, x)
    ensures Alive(g, x) <==> x !in g.gone || exists c :: c in g.parent && g.parent[c] == x && Alive(g, c)
  {
    UnderSelf(g, x);
    if Alive(g, x) && x in g.gone {
      var y :| Under(g, y, x) && y !in g.gone;
      var c := UnderSplit(g, y, x);
      assert Alive(g, c);
    }
    forall c | c in g.parent && g.parent[c] == x && Alive(g, c)
      ensures Alive(g, x)
    {
      var y :| Under(g, y, c) && y !in g.gone;
      UnderChild(g, y, c);
    }
  }

  // ----- the lists

  function Keep(ids: seq<Id>, kept: set<Id>): seq<Id> {
    if ids == [] then [] else (if ids[0] in kept then [ids[0]] else []) + Keep(ids[1..], kept)
  }

  lemma {:induction false} KeepIn(ids: seq<Id>, kept: set<Id>, x: Id)
    ensures x in Keep(ids, kept) <==> x in ids && x in kept
  {
    if ids != [] {
      KeepIn(ids[1..], kept, x);
      assert ids == [ids[0]] + ids[1..];
    }
  }

  lemma {:induction false} KeepConcat(a: seq<Id>, b: seq<Id>, kept: set<Id>)
    ensures Keep(a + b, kept) == Keep(a, kept) + Keep(b, kept)
  {
    if a == [] {
      assert a + b == b;
    } else {
      assert (a + b)[1..] == a[1..] + b;
      KeepConcat(a[1..], b, kept);
    }
  }

  ghost function AliveSet(g: Graph): set<Id> {
    set x | x in g.nodes && Alive(g, x)
  }

  /** `roots` and `replies` list every node once: under its parent, or at the top. */
  ghost predicate Lists(g: Graph, roots: seq<Id>, replies: map<Id, seq<Id>>) {
    && replies.Keys == g.nodes
    && (forall x :: x in roots <==> x in g.nodes && x !in g.parent)
    && (forall p, x :: p in replies ==> (x in replies[p] <==> x in g.parent && g.parent[x] == p))
    && NoRepeats(roots) && (forall p :: p in replies ==> NoRepeats(replies[p]))
  }

  predicate NoRepeats(ids: seq<Id>) {
    forall i, j :: 0 <= i < j < |ids| ==> ids[i] != ids[j]
  }

  /** What prune leaves: the lists of rooted nodes without their dead members; the rest untouched. */
  ghost function PrunedReplies(g: Graph, replies: map<Id, seq<Id>>): map<Id, seq<Id>> {
    map x | x in replies :: if Rooted(g, x) then Keep(replies[x], AliveSet(g)) else replies[x]
  }

  /** A walk down the lists from the top. */
  predicate InForest(roots: seq<Id>, replies: map<Id, seq<Id>>, p: seq<Id>) {
    && p != [] && p[0] in roots
    && forall i {:trigger p[i]} :: 0 < i < |p| ==> HasReply(replies, p[i - 1], p[i])
  }

  predicate HasReply(replies: map<Id, seq<Id>>, a: Id, b: Id) {
    a in replies && b in replies[a]
  }

  /**
   The pruned lists are a forest: a node is reached from the roots just when its parent chain ends and it,
   or something under it, has a body; and it is reached along one walk only.
   */
  lemma ForestOfPruned(g: Graph, roots: seq<Id>, replies: map<Id, seq<Id>>, x: Id)
    requires Valid(g) && Lists(g, roots, replies) && x in g.nodes
    ensures (exists p :: InForest(Keep(roots, AliveSet(g)), PrunedReplies(g, replies), p) && Last(p) == x)
        <==> Rooted(g, x) && Alive(g, x)
    ensures forall p :: InForest(Keep(roots, AliveSet(g)), PrunedReplies(g, replies), p) && Last(p) == x ==>
              Rooted(g, x) && p == PathTo(g, x)
  {
    var roots', replies' := Keep(roots, AliveSet(g)), PrunedReplies(g, replies);
    if Rooted(g, x) && Alive(g, x) {
      AliveIsReached(g, roots, replies, x);
    }
    forall p | InForest(roots', replies', p) && Last(p) == x
      ensures IsPath(g, p) && Rooted(g, x) && Alive(g, x) && p == PathTo(g, x)
    {
      ReachedIsAlive(g, roots, replies, p);
      PathUnique(g, p, PathTo(g, x));
    }
  }

  lemma PrunedStep(g: Graph, roots: seq<Id>, replies: map<Id, seq<Id>>, a: Id, b: Id)
    requires Lists(g, roots, replies) && Rooted(g, a) && a in g.nodes
    ensures HasReply(PrunedReplies(g, replies), a, b) <==> b in g.parent && g.parent[b] == a && b in AliveSet(g)
  {
    hide AliveSet, Keep, NoRepeats, Rooted;
    KeepIn(replies[a], AliveSet(g), b);
  }

  lemma {:induction false} ReachedIsAlive(g: Graph, roots: seq<Id>, replies: map<Id, seq<Id>>, p: seq<Id>)
    requires Valid(g) && Lists(g, roots, replies) && InForest(Keep(roots, AliveSet(g)), PrunedReplies(g, replies), p)
    ensures IsPath(g, p) && Last(p) in AliveSet(g)
  {
    hide Keep, PrunedReplies, NoRepeats, AliveSet, HasReply, Rooted, PathTo;
    if |p| == 1 {
      KeepIn(roots, AliveSet(g), p[0]);
    } else {
      var q, x := p[..|p| - 1], Last(p);
      assert p == q + [x];
      ReachedIsAlive(g, roots, replies, q);
      hide Lists;
      assert HasReply(PrunedReplies(g, replies), p[|p| - 2], p[|p| - 1]);
      LastIsNode(g, q);
      PrunedStep(g, roots, replies, Last(q), x);
      ExtendPath(g, q, x);
    }
  }

  lemma LastIsNode(g: Graph, p: seq<Id>)
    requires Valid(g) && IsPath(g, p)
    ensures Last(p) in g.nodes && Rooted(g, Last(p))
  {
  }

  lemma AliveIsReached(g: Graph, roots: seq<Id>, replies: map<Id, seq<Id>>, x: Id)
    requires Valid(g) && Lists(g, roots, replies) && Rooted(g, x) && Alive(g, x)
    ensures InForest(Keep(roots, AliveSet(g)), PrunedReplies(g, replies), PathTo(g, x))
  {
    var p := PathTo(g, x);
    forall i | 0 <= i < |p|
      ensures p[i] in AliveSet(g) && Rooted(g, p[i])
    {
      PrefixPath(g, p, i + 1);
      LastIsNode(g, p[..i + 1]);
      AncestorAlive(g, x, i);
    }
    KeepIn(roots, AliveSet(g), p[0]);
    hide Alive, PathTo, PrunedReplies, HasReply, Keep;
    forall i | 0 < i < |p|
      ensures HasReply(PrunedReplies(g, replies), p[i - 1], p[i])
    {
      assert p[i - 1] in AliveSet(g);
      PrunedStep(g, roots, replies, p[i - 1], p[i]);
    }
  }

  /** Every node on the walk to an alive node is alive. */
  lemma AncestorAlive(g: Graph, x: Id, i: nat)
    requires Rooted(g, x) && Alive(g, x) && i < |PathTo(g, x)|
    ensures Alive(g, PathTo(g, x)[i])
  {
    var y :| Under(g, y, x) && y !in g.gone;
    var p, q := PathTo(g, x), PathTo(g, y);
    var j :| 0 <= j < |q| && q[j] == x;
    PrefixPath(g, q, j + 1);
    assert p == q[..j + 1];
    assert p[i] == q[i];
    assert Under(g, y, p[i]);
  }
}
