/**
 cmtFold: an unordered set of comment records, with edits, resolves, withdrawals and parents, becomes a
 forest of comments. Nodes are named by their ids, so the `replies` map is the object graph that the
 original builds and then prunes in place.
 */
module CommentFold {
  import opened CommentOrder
  import opened CommentForest
  import opened Whitespace

  datatype Node = Node(id: Id, rev: int, author: string, createdAt: string, body: string, anchor: string, edited: bool, gone: bool, resolved: bool)

  // ----- edits

  /** idx: where each id sits in sorted order. */
  function Index(s: seq<Rec>, n: nat): map<Id, nat>
    requires n <= |s|
  {
    if n == 0 then map[] else Index(s, n - 1)[s[n - 1].id := n - 1]
  }

  lemma {:induction false} IndexFinds(s: seq<Rec>, n: nat)
    requires DistinctIds(s) && n <= |s|
    ensures forall i :: 0 <= i < n ==> s[i].id in Index(s, n) && Index(s, n)[s[i].id] == i
    ensures forall id :: id in Index(s, n) ==> Index(s, n)[id] < n && s[Index(s, n)[id]].id == id
  {
    if n > 0 {
      IndexFinds(s, n - 1);
    }
  }

  /** A record that supersedes an earlier one. */
  predicate IsEdit(s: seq<Rec>, i: nat)
    requires i < |s|
  {
    s[i].supersedes != "" && s[i].supersedes in Index(s, |s|) && Index(s, |s|)[s[i].supersedes] < i
  }

  /** next: the last edit of each record. */
  function NextMap(s: seq<Rec>, n: nat): map<Id, Id>
    requires n <= |s|
  {
    if n == 0 then map[]
    else if IsEdit(s, n - 1) then NextMap(s, n - 1)[s[n - 1].supersedes := s[n - 1].id]
    else NextMap(s, n - 1)
  }

  lemma {:induction false} NextIsEdit(s: seq<Rec>, n: nat, id: Id)
    requires DistinctIds(s) && n <= |s| && id in NextMap(s, n)
    ensures var index := Index(s, |s|); var e := NextMap(s, n)[id];
      e in index && index[e] < |s| && IsEdit(s, index[e]) && s[index[e]].supersedes == id && id in index && index[id] < index[e]
  {
    IndexFinds(s, |s|);
    if n > 0 && !(IsEdit(s, n - 1) && s[n - 1].supersedes == id) {
      NextIsEdit(s, n - 1, id);
    }
  }

  /** The position of the edit that follows position `i`, if any. */
  function Following(s: seq<Rec>, i: nat): (j: nat)
    requires DistinctIds(s) && i < |s|
    ensures i <= j < |s|
    ensures j > i ==> IsEdit(s, j) && s[j].supersedes == s[i].id
  {
    var next := NextMap(s, |s|);
    if s[i].id in next && next[s[i].id] != "" then
      NextIsEdit(s, |s|, s[i].id);
      IndexFinds(s, |s|);
      Index(s, |s|)[next[s[i].id]]
    else i
  }

  /** latest: the end of the chain of edits that starts at `i`. */
  function LatestAt(s: seq<Rec>, i: nat): (j: nat)
    requires DistinctIds(s) && i < |s|
    ensures i <= j < |s|
    decreases |s| - i
  {
    if Following(s, i) > i then LatestAt(s, Following(s, i)) else i
  }

  /** Position `k` is reached from `i` by edits. */
  predicate OnChain(s: seq<Rec>, i: nat, k: nat)
    requires DistinctIds(s) && i < |s| && k < |s|
    decreases k
  {
    k == i || (IsEdit(s, k) &&
      (IndexFinds(s, |s|); Following(s, Index(s, |s|)[s[k].supersedes]) == k && OnChain(s, i, Index(s, |s|)[s[k].supersedes])))
  }

  lemma {:induction false} LatestOnChain(s: seq<Rec>, i: nat, k: nat)
    requires DistinctIds(s) && i < |s| && k < |s| && OnChain(s, i, k)
    ensures OnChain(s, i, LatestAt(s, k))
    decreases |s| - k
  {
    var j := Following(s, k);
    if j > k {
      IndexFinds(s, |s|);
      assert OnChain(s, i, j);
      LatestOnChain(s, i, j);
    }
  }

  /** Chains of different comments never share a record. */
  lemma {:induction false} ChainsApart(s: seq<Rec>, i: nat, j: nat, k: nat)
    requires DistinctIds(s) && i < |s| && j < |s| && k < |s| && !IsEdit(s, i) && !IsEdit(s, j)
    requires OnChain(s, i, k) && OnChain(s, j, k)
    ensures i == j
    decreases k
  {
    if k != i && k != j {
      IndexFinds(s, |s|);
      ChainsApart(s, i, j, Index(s, |s|)[s[k].supersedes]);
    }
  }

  // ----- nodes

  predicate Blank(body: string) {
    forall i :: 0 <= i < |body| ==> Space(body[i])
  }

  function Resolves(s: seq<Rec>, n: nat): set<Id>
    requires n <= |s|
  {
    if n == 0 then {} else Resolves(s, n - 1) + (if s[n - 1].resolves != "" then {s[n - 1].resolves} else {})
  }

  /** A record that stands as a comment of its own: neither an edit nor a bare resolve. */
  predicate Stands(s: seq<Rec>, i: nat)
    requires i < |s|
  {
    !IsEdit(s, i) && (s[i].resolves != "" ==> s[i].body != "")
  }

  function NodeAt(s: seq<Rec>, i: nat): Node
    requires DistinctIds(s) && i < |s|
  {
    var r, h := s[i], s[LatestAt(s, i)];
    Node(r.id, h.rev, h.author, r.createdAt, h.body, r.anchor, h.id != r.id, Blank(h.body), r.id in Resolves(s, |s|))
  }

  function Nodes(s: seq<Rec>, n: nat): map<Id, Node>
    requires DistinctIds(s) && n <= |s|
  {
    if n == 0 then map[]
    else if Stands(s, n - 1) then Nodes(s, n - 1)[s[n - 1].id := NodeAt(s, n - 1)]
    else Nodes(s, n - 1)
  }

  /** The first `n` records hold a comment with this id, at position `i`. */
  predicate CommentAt(s: seq<Rec>, n: nat, id: Id, i: nat) {
    i < n <= |s| && s[i].id == id && Stands(s, i)
  }

  lemma {:induction false} NodesAre(s: seq<Rec>, n: nat)
    requires DistinctIds(s) && n <= |s|
    ensures forall id :: id in Nodes(s, n) <==> exists i :: CommentAt(s, n, id, i)
    ensures forall i :: 0 <= i < n && Stands(s, i) ==> s[i].id in Nodes(s, n) && Nodes(s, n)[s[i].id] == NodeAt(s, i)
  {
    hide Stands, NodeAt;
    if n > 0 {
      NodesAre(s, n - 1);
      forall id | id in Nodes(s, n)
        ensures exists i :: CommentAt(s, n, id, i)
      {
        if id in Nodes(s, n - 1) {
          var i :| CommentAt(s, n - 1, id, i);
          assert CommentAt(s, n, id, i);
        } else {
          assert CommentAt(s, n, id, n - 1);
        }
      }
    }
  }

  /** A comment's record. */
  lemma NodeRecord(s: seq<Rec>, id: Id)
    requires DistinctIds(s) && id in Nodes(s, |s|)
    ensures id in Index(s, |s|) && var i := Index(s, |s|)[id]; i < |s| && s[i].id == id && Stands(s, i) && Nodes(s, |s|)[id] == NodeAt(s, i)
  {
    IndexFinds(s, |s|);
    NodesAre(s, |s|);
    hide Stands, NodeAt;
    var i :| CommentAt(s, |s|, id, i);
  }

  // ----- links

  /** Record `i` is a comment whose parent is also a comment. */
  predicate HasParent(s: seq<Rec>, i: nat)
    requires DistinctIds(s) && i < |s|
  {
    s[i].parent != "" && s[i].parent in Nodes(s, |s|)
  }

  function Roots(s: seq<Rec>, n: nat): seq<Id>
    requires DistinctIds(s) && n <= |s|
  {
    if n == 0 then []
    else if Stands(s, n - 1) && !HasParent(s, n - 1) then Roots(s, n - 1) + [s[n - 1].id]
    else Roots(s, n - 1)
  }

  function Kids(s: seq<Rec>, p: Id, n: nat): seq<Id>
    requires DistinctIds(s) && n <= |s|
  {
    if n == 0 then []
    else if Stands(s, n - 1) && HasParent(s, n - 1) && s[n - 1].parent == p then Kids(s, p, n - 1) + [s[n - 1].id]
    else Kids(s, p, n - 1)
  }

  function Replies(s: seq<Rec>, n: nat): map<Id, seq<Id>>
    requires DistinctIds(s) && n <= |s|
  {
    map p | p in Nodes(s, |s|) :: Kids(s, p, n)
  }

  function ParentOf(s: seq<Rec>, id: Id): Id
    requires DistinctIds(s) && id in Nodes(s, |s|)
  {
    NodeRecord(s, id);
    s[Index(s, |s|)[id]].parent
  }

  function GraphOf(s: seq<Rec>): Graph
    requires DistinctIds(s)
  {
    var nodes := Nodes(s, |s|);
    Graph(nodes.Keys,
          map id | id in nodes && ParentOf(s, id) != "" && ParentOf(s, id) in nodes :: ParentOf(s, id),
          set id | id in nodes && nodes[id].gone)
  }

  /** Position `i` holds a comment with this id, listed under `p` (or at the top). */
  predicate RootAt(s: seq<Rec>, n: nat, id: Id, i: nat)
    requires DistinctIds(s)
  {
    i < n <= |s| && s[i].id == id && Stands(s, i) && !HasParent(s, i)
  }

  predicate KidAt(s: seq<Rec>, n: nat, p: Id, id: Id, i: nat)
    requires DistinctIds(s)
  {
    i < n <= |s| && s[i].id == id && Stands(s, i) && HasParent(s, i) && s[i].parent == p
  }

  lemma {:induction false} RootsAre(s: seq<Rec>, n: nat)
    requires DistinctIds(s) && n <= |s|
    ensures forall x :: x in Roots(s, n) <==> exists i :: RootAt(s, n, x, i)
    ensures NoRepeats(Roots(s, n))
  {
    hide Stands, HasParent;
    if n > 0 {
      RootsAre(s, n - 1);
      assert s[n - 1].id !in Roots(s, n - 1);
      forall x
        ensures x in Roots(s, n) <==> exists i :: RootAt(s, n, x, i)
      {
        if x in Roots(s, n - 1) {
          var i :| RootAt(s, n - 1, x, i);
          assert RootAt(s, n, x, i);
        } else if x in Roots(s, n) {
          assert RootAt(s, n, x, n - 1);
        } else {
          forall i: nat | RootAt(s, n, x, i) ensures i < n - 1 && RootAt(s, n - 1, x, i) { }
        }
      }
    }
  }

  lemma {:induction false} KidsAre(s: seq<Rec>, p: Id, n: nat)
    requires DistinctIds(s) && n <= |s|
    ensures forall x :: x in Kids(s, p, n) <==> exists i :: KidAt(s, n, p, x, i)
    ensures NoRepeats(Kids(s, p, n))
  {
    hide Stands, HasParent;
    if n > 0 {
      KidsAre(s, p, n - 1);
      assert s[n - 1].id !in Kids(s, p, n - 1);
      forall x
        ensures x in Kids(s, p, n) <==> exists i :: KidAt(s, n, p, x, i)
      {
        if x in Kids(s, p, n - 1) {
          var i :| KidAt(s, n - 1, p, x, i);
          assert KidAt(s, n, p, x, i);
        } else if x in Kids(s, p, n) {
          assert KidAt(s, n, p, x, n - 1);
        } else {
          forall i: nat | KidAt(s, n, p, x, i) ensures i < n - 1 && KidAt(s, n - 1, p, x, i) { }
        }
      }
    }
  }

  lemma RootOrKid(s: seq<Rec>, x: Id, i: nat)
    requires DistinctIds(s) && i < |s| && s[i].id == x && Stands(s, i)
    ensures x in Nodes(s, |s|) && ParentOf(s, x) == s[i].parent
    ensures x in GraphOf(s).parent <==> HasParent(s, i)
    ensures x in GraphOf(s).parent ==> GraphOf(s).parent[x] == s[i].parent
  {
    NodesAre(s, |s|);
    IndexFinds(s, |s|);
  }

  /** Every comment sits in exactly one list. */
  lemma EachInOneList(s: seq<Rec>)
    requires DistinctIds(s)
    ensures Valid(GraphOf(s)) && Lists(GraphOf(s), Roots(s, |s|), Replies(s, |s|))
  {
    var g := GraphOf(s);
    RootsAre(s, |s|);
    forall x
      ensures x in Roots(s, |s|) <==> x in g.nodes && x !in g.parent
    {
      Placed(s, x);
    }
    forall p | p in Nodes(s, |s|)
      ensures NoRepeats(Kids(s, p, |s|))
      ensures forall x :: x in Kids(s, p, |s|) <==> x in g.parent && g.parent[x] == p
    {
      KidsAre(s, p, |s|);
      forall x
        ensures x in Kids(s, p, |s|) <==> x in g.parent && g.parent[x] == p
      {
        Placed(s, x);
        assert Listed(s, p, x) <==> x in Kids(s, p, |s|);
      }
    }
  }

  ghost predicate Listed(s: seq<Rec>, p: Id, x: Id)
    requires DistinctIds(s)
  {
    exists i :: KidAt(s, |s|, p, x, i)
  }

  lemma Placed(s: seq<Rec>, x: Id)
    requires DistinctIds(s)
    ensures (exists i :: RootAt(s, |s|, x, i)) <==> x in GraphOf(s).nodes && x !in GraphOf(s).parent
    ensures forall p :: Listed(s, p, x) <==> x in GraphOf(s).parent && GraphOf(s).parent[x] == p
  {
    forall i | 0 <= i < |s| && s[i].id == x && Stands(s, i)
      ensures x in Nodes(s, |s|)
      ensures x in GraphOf(s).parent <==> HasParent(s, i)
      ensures x in GraphOf(s).parent ==> GraphOf(s).parent[x] == s[i].parent
    {
      RootOrKid(s, x, i);
    }
    if x in Nodes(s, |s|) {
      NodeRecord(s, x);
      var i := Index(s, |s|)[x];
      RootOrKid(s, x, i);
      hide Stands, HasParent, GraphOf;
      assert HasParent(s, i) || RootAt(s, |s|, x, i);
      assert HasParent(s, i) ==> KidAt(s, |s|, s[i].parent, x, i);
    }
  }

  // ----- the fold

  /** What cmtFold returns: the roots it keeps, and the nodes and lists they lead to. */
  datatype Forest = Forest(roots: seq<Id>, nodes: map<Id, Node>, replies: map<Id, seq<Id>>)

  ghost function Folded(s: seq<Rec>): Forest
    requires DistinctIds(s)
  {
    var g := GraphOf(s);
    Forest(Keep(Roots(s, |s|), AliveSet(g)), Nodes(s, |s|), PrunedReplies(g, Replies(s, |s|)))
  }

  /** prune: filters the lists below `id`, deepest first, and says whether `id` stays. */
  method Prune(nodes: map<Id, Node>, id: Id, before: map<Id, seq<Id>>,
               ghost g: Graph, ghost path: seq<Id>, ghost roots: seq<Id>, ghost original: map<Id, seq<Id>>)
    returns (stays: bool, replies: map<Id, seq<Id>>)
    requires Shows(nodes, g) && Valid(g) && Lists(g, roots, original) && IsPath(g, path) && Last(path) == id
    requires before.Keys == original.Keys && forall x :: x in before && Under(g, x, id) ==> before[x] == original[x]
    ensures stays <==> Alive(g, id)
    ensures replies.Keys == before.Keys
    ensures forall x :: x in before ==>
      replies[x] == if Under(g, x, id) then Keep(original[x], AliveSet(g)) else before[x]
    decreases |g.nodes| - |path|
  {
    hide Under, Alive, AliveSet, Keep, Lists, Valid, IsPath, Shows;
    TopFacts(g, id, path, roots, original);
    var kids := before[id];
    var kept: seq<Id> := [];
    replies := before;
    var k := 0;
    assert kids[..0] == [] && Keep([], AliveSet(g)) == [] by { KeepNothing(AliveSet(g)); }
    while k < |kids|
      invariant 0 <= k <= |kids| && replies.Keys == before.Keys
      invariant kept == Keep(kids[..k], AliveSet(g))
      invariant forall x :: x in before ==>
        replies[x] == if UnderSome(g, x, kids[..k]) then Keep(original[x], AliveSet(g)) else before[x]
    {
      var c := kids[k];
      KidFacts(g, id, path, roots, original, k);
      var stay;
      stay, replies := Prune(nodes, c, replies, g, path + [c], roots, original);
      if stay {
        kept := kept + [c];
      }
      k := k + 1;
    }
    assert kids[..k] == kids;
    replies := replies[id := kept];
    GoneIs(nodes, g, id);
    stays := !nodes[id].gone || kept != [];
    AliveByKept(g, id, roots, original);
    UnderByKids(g, id, roots, original);
  }

  predicate Shows(nodes: map<Id, Node>, g: Graph) {
    nodes.Keys == g.nodes && forall x :: x in nodes ==> (nodes[x].gone <==> x in g.gone)
  }

  lemma GoneIs(nodes: map<Id, Node>, g: Graph, id: Id)
    requires Shows(nodes, g) && Rooted(g, id) && Valid(g)
    ensures id in nodes && (nodes[id].gone <==> id in g.gone)
  {
    LastIsNode(g, PathTo(g, id));
  }

  lemma KeepNothing(kept: set<Id>)
    ensures Keep([], kept) == []
  {
  }

  ghost predicate UnderSome(g: Graph, x: Id, tops: seq<Id>) {
    exists c :: c in tops && Under(g, x, c)
  }

  lemma TopFacts(g: Graph, id: Id, path: seq<Id>, roots: seq<Id>, original: map<Id, seq<Id>>)
    requires Valid(g) && Lists(g, roots, original) && IsPath(g, path) && Last(path) == id
    ensures id in original && Rooted(g, id) && Under(g, id, id)
  {
    LastIsNode(g, path);
    UnderSelf(g, id);
  }

  /** What pruning the child at position `k` relies on, and what its verdict adds. */
  lemma KidFacts(g: Graph, id: Id, path: seq<Id>, roots: seq<Id>, original: map<Id, seq<Id>>, k: nat)
    requires Valid(g) && Lists(g, roots, original) && IsPath(g, path) && Last(path) == id && id in original && k < |original[id]|
    ensures var kids := original[id]; var c := kids[k];
      && IsPath(g, path + [c]) && Last(path + [c]) == c && |path| < |g.nodes|
      && (forall x :: Under(g, x, c) ==> Under(g, x, id) && !UnderSome(g, x, kids[..k]))
      && (forall x :: UnderSome(g, x, kids[..k + 1]) <==> UnderSome(g, x, kids[..k]) || Under(g, x, c))
      && Keep(kids[..k + 1], AliveSet(g)) == Keep(kids[..k], AliveSet(g)) + if Alive(g, c) then [c] else []
  {
    hide Under, UnderSome, Alive, AliveSet, Keep, IsPath, Lists, PathTo;
    var kids := original[id];
    KidOf(g, roots, original, id, k);
    ExtendPath(g, path, kids[k]);
    PathShort(g, path + [kids[k]]);
    KidKeep(g, kids, k);
    forall x
      ensures Under(g, x, kids[k]) ==> Under(g, x, id) && !UnderSome(g, x, kids[..k])
      ensures UnderSome(g, x, kids[..k + 1]) <==> UnderSome(g, x, kids[..k]) || Under(g, x, kids[k])
    {
      UnderSomeGrows(g, x, kids, k);
      if Under(g, x, kids[k]) {
        UnderChild(g, x, kids[k]);
        SiblingsApart(g, roots, original, id, k, x);
      }
    }
  }

  lemma KidOf(g: Graph, roots: seq<Id>, original: map<Id, seq<Id>>, id: Id, k: nat)
    requires Valid(g) && Lists(g, roots, original) && id in original && k < |original[id]|
    ensures var c := original[id][k]; c in g.parent && g.parent[c] == id && c in g.nodes
  {
    assert original[id][k] in original[id];
  }

  lemma UnderSomeGrows(g: Graph, x: Id, kids: seq<Id>, k: nat)
    requires k < |kids|
    ensures UnderSome(g, x, kids[..k + 1]) <==> UnderSome(g, x, kids[..k]) || Under(g, x, kids[k])
  {
    assert kids[..k + 1] == kids[..k] + [kids[k]];
    assert kids[k] in kids[..k + 1];
    hide Under;
  }

  lemma KidKeep(g: Graph, kids: seq<Id>, k: nat)
    requires k < |kids| && kids[k] in g.nodes
    ensures Keep(kids[..k + 1], AliveSet(g)) == Keep(kids[..k], AliveSet(g)) + if Alive(g, kids[k]) then [kids[k]] else []
  {
    assert kids[..k + 1] == kids[..k] + [kids[k]];
    KeepConcat(kids[..k], [kids[k]], AliveSet(g));
    assert [kids[k]][1..] == [];
  }

  lemma SiblingsApart(g: Graph, roots: seq<Id>, original: map<Id, seq<Id>>, id: Id, k: nat, x: Id)
    requires Lists(g, roots, original) && id in original && k < |original[id]| && Under(g, x, original[id][k])
    ensures !UnderSome(g, x, original[id][..k])
  {
    hide Under;
    var c := original[id][k];
    assert c in original[id];
    forall d | d in original[id][..k] && Under(g, x, d)
      ensures false
    {
      assert d in original[id] && c != d;
      ChildrenApart(g, x, c, d);
    }
  }

  lemma AliveByKept(g: Graph, id: Id, roots: seq<Id>, original: map<Id, seq<Id>>)
    requires Valid(g) && Lists(g, roots, original) && Rooted(g, id) && id in original
    ensures Alive(g, id) <==> id !in g.gone || Keep(original[id], AliveSet(g)) != []
  {
    AliveStep(g, id);
    var kept := Keep(original[id], AliveSet(g));
    forall c
      ensures c in kept <==> c in g.parent && g.parent[c] == id && Alive(g, c)
    {
      KeepIn(original[id], AliveSet(g), c);
    }
    hide Keep, Alive, AliveSet, Rooted;
    assert kept != [] ==> kept[0] in kept;
  }

  lemma UnderByKids(g: Graph, id: Id, roots: seq<Id>, original: map<Id, seq<Id>>)
    requires Lists(g, roots, original) && Rooted(g, id) && id in original
    ensures forall x :: x != id ==> (Under(g, x, id) <==> UnderSome(g, x, original[id]))
  {
    hide Rooted, PathTo;
    forall x | x != id
      ensures Under(g, x, id) <==> UnderSome(g, x, original[id])
    {
      if Under(g, x, id) {
        var c := UnderSplit(g, x, id);
        assert c in original[id];
      }
      if UnderSome(g, x, original[id]) {
        var c :| c in original[id] && Under(g, x, c);
        UnderChild(g, x, c);
      }
    }
  }

  /** The end of the chain of edits that starts at `i`, by following `next`. */
  method Latest(s: seq<Rec>, index: map<Id, nat>, next: map<Id, Id>, i: nat) returns (j: nat)
    requires DistinctIds(s) && i < |s| && index == Index(s, |s|) && next == NextMap(s, |s|)
    ensures j == LatestAt(s, i)
  {
    IndexFinds(s, |s|);
    j := i;
    while s[j].id in next && next[s[j].id] != ""
      invariant i <= j < |s| && LatestAt(s, j) == LatestAt(s, i)
      decreases |s| - j
    {
      NextIsEdit(s, |s|, s[j].id);
      assert Following(s, j) == index[next[s[j].id]];
      j := index[next[s[j].id]];
    }
  }

  /** The records folded into a forest that depends on their sorted order alone. */
  method CmtFold(records: seq<Rec>) returns (roots: seq<Id>, nodes: map<Id, Node>, replies: map<Id, seq<Id>>)
    requires DistinctIds(records)
    ensures DistinctIds(Sort(records)) && Forest(roots, nodes, replies) == Folded(Sort(records))
  {
    SortSorts(records);
    var sorted := Sort(records);
    var n := |sorted|;
    var index, next, resolved := Scan(sorted);
    nodes := Comments(sorted, index, next, resolved);
    var all, lists := Link(sorted, nodes);
    EachInOneList(sorted);
    hide Lists, Valid, GraphOf, Nodes, Roots, Replies, Keep, AliveSet, PrunedReplies, Index, NextMap, Resolves;
    roots, replies := PruneAll(nodes, all, lists, GraphOf(sorted));
  }

  /** The first passes: positions, edits and resolves. */
  method Scan(sorted: seq<Rec>) returns (index: map<Id, nat>, next: map<Id, Id>, resolved: set<Id>)
    ensures index == Index(sorted, |sorted|) && next == NextMap(sorted, |sorted|) && resolved == Resolves(sorted, |sorted|)
  {
    index, next, resolved := map[], map[], {};
    for i := 0 to |sorted|
      invariant index == Index(sorted, i)
    {
      index := index[sorted[i].id := i];
    }
    for i := 0 to |sorted|
      invariant next == NextMap(sorted, i)
    {
      var r := sorted[i];
      if r.supersedes != "" && r.supersedes in index && index[r.supersedes] < i {
        next := next[r.supersedes := r.id];
      }
    }
    for i := 0 to |sorted|
      invariant resolved == Resolves(sorted, i)
    {
      if sorted[i].resolves != "" {
        resolved := resolved + {sorted[i].resolves};
      }
    }
  }

  /** The pass that makes the nodes. */
  method Comments(sorted: seq<Rec>, index: map<Id, nat>, next: map<Id, Id>, resolved: set<Id>) returns (nodes: map<Id, Node>)
    requires DistinctIds(sorted) && index == Index(sorted, |sorted|) && next == NextMap(sorted, |sorted|)
    requires resolved == Resolves(sorted, |sorted|)
    ensures nodes == Nodes(sorted, |sorted|)
  {
    nodes := map[];
    for i := 0 to |sorted|
      invariant nodes == Nodes(sorted, i)
    {
      var r := sorted[i];
      if IsEdit(sorted, i) || (r.resolves != "" && r.body == "") {
        continue;
      }
      var j := Latest(sorted, index, next, i);
      var h := sorted[j];
      nodes := nodes[r.id := Node(r.id, h.rev, h.author, r.createdAt, h.body, r.anchor, h.id != r.id, Blank(h.body), r.id in resolved)];
    }
  }

  /** The pass that lists each node under its parent or at the top. */
  method Link(sorted: seq<Rec>, nodes: map<Id, Node>) returns (roots: seq<Id>, replies: map<Id, seq<Id>>)
    requires DistinctIds(sorted) && nodes == Nodes(sorted, |sorted|)
    ensures roots == Roots(sorted, |sorted|) && replies == Replies(sorted, |sorted|)
  {
    roots, replies := [], map id | id in nodes :: [];
    for i := 0 to |sorted|
      invariant roots == Roots(sorted, i) && replies == Replies(sorted, i)
    {
      var r := sorted[i];
      CommentKnown(sorted, i);
      if Stands(sorted, i) {
        if r.parent != "" && r.parent in nodes {
          replies := replies[r.parent := replies[r.parent] + [r.id]];
        } else {
          roots := roots + [r.id];
        }
      }
    }
  }

  /** A record has a node just when it stands as a comment. */
  lemma CommentKnown(s: seq<Rec>, i: nat)
    requires DistinctIds(s) && i < |s|
    ensures Stands(s, i) <==> s[i].id in Nodes(s, |s|)
  {
    NodesAre(s, |s|);
    if s[i].id in Nodes(s, |s|) {
      var j :| CommentAt(s, |s|, s[i].id, j);
      assert j == i;
    }
  }

  /** The last line of cmtFold: prunes below each root in turn and keeps the roots that stay. */
  method PruneAll(nodes: map<Id, Node>, all: seq<Id>, lists: map<Id, seq<Id>>, ghost g: Graph)
    returns (roots: seq<Id>, replies: map<Id, seq<Id>>)
    requires Shows(nodes, g) && Valid(g) && Lists(g, all, lists)
    ensures roots == Keep(all, AliveSet(g)) && replies == PrunedReplies(g, lists)
  {
    hide Under, UnderSome, Alive, AliveSet, Keep, Lists, Valid, IsPath, PrunedReplies, Shows;
    roots, replies := [], lists;
    KeepNothing(AliveSet(g));
    UnderNone(g);
    for k := 0 to |all|
      invariant roots == Keep(all[..k], AliveSet(g)) && replies.Keys == lists.Keys
      invariant forall x :: x in lists ==> replies[x] == if UnderSome(g, x, all[..k]) then Keep(lists[x], AliveSet(g)) else lists[x]
    {
      RootFacts(g, all, lists, k);
      var stays;
      stays, replies := Prune(nodes, all[k], replies, g, [all[k]], all, lists);
      if stays {
        roots := roots + [all[k]];
      }
    }
    assert all[..|all|] == all;
    UnderRoots(g, all, lists);
    AllPruned(g, lists, replies, all);
  }

  lemma UnderNone(g: Graph)
    ensures forall x :: !UnderSome(g, x, [])
  {
  }

  lemma AllPruned(g: Graph, lists: map<Id, seq<Id>>, replies: map<Id, seq<Id>>, all: seq<Id>)
    requires replies.Keys == lists.Keys
    requires forall x :: x in lists ==> (UnderSome(g, x, all) <==> Rooted(g, x))
    requires forall x :: x in lists ==> replies[x] == if UnderSome(g, x, all) then Keep(lists[x], AliveSet(g)) else lists[x]
    ensures replies == PrunedReplies(g, lists)
  {
    hide Rooted, UnderSome, Keep, AliveSet;
  }

  /** What pruning the root at position `k` relies on, and what its verdict adds. */
  lemma RootFacts(g: Graph, all: seq<Id>, lists: map<Id, seq<Id>>, k: nat)
    requires Valid(g) && Lists(g, all, lists) && k < |all|
    ensures var c := all[k];
      && IsPath(g, [c]) && Last([c]) == c
      && (forall x :: Under(g, x, c) ==> !UnderSome(g, x, all[..k]))
      && (forall x :: UnderSome(g, x, all[..k + 1]) <==> UnderSome(g, x, all[..k]) || Under(g, x, c))
      && Keep(all[..k + 1], AliveSet(g)) == Keep(all[..k], AliveSet(g)) + if Alive(g, c) then [c] else []
  {
    RootOf(g, all, lists, k);
    hide Under, UnderSome, Alive, AliveSet, Keep, Lists, PathTo;
    KidKeep(g, all, k);
    forall x
      ensures Under(g, x, all[k]) ==> !UnderSome(g, x, all[..k])
      ensures UnderSome(g, x, all[..k + 1]) <==> UnderSome(g, x, all[..k]) || Under(g, x, all[k])
    {
      UnderSomeGrows(g, x, all, k);
      if Under(g, x, all[k]) {
        RootsApart(g, all, lists, k, x);
      }
    }
  }

  lemma RootOf(g: Graph, all: seq<Id>, lists: map<Id, seq<Id>>, k: nat)
    requires Lists(g, all, lists) && k < |all|
    ensures all[k] in g.nodes && all[k] !in g.parent
  {
    assert all[k] in all;
  }

  lemma RootsApart(g: Graph, all: seq<Id>, lists: map<Id, seq<Id>>, k: nat, x: Id)
    requires Lists(g, all, lists) && k < |all| && Under(g, x, all[k])
    ensures !UnderSome(g, x, all[..k])
  {
    RootOf(g, all, lists, k);
    UnderRoot(g, x, all[k]);
    forall d | d in all[..k] && Under(g, x, d)
      ensures false
    {
      assert d in all;
      UnderRoot(g, x, d);
    }
  }

  /** A root is the first node of every walk it is on. */
  lemma UnderRoot(g: Graph, x: Id, root: Id)
    requires Under(g, x, root) && root !in g.parent
    ensures PathTo(g, x)[0] == root
  {
  }

  lemma UnderRoots(g: Graph, all: seq<Id>, lists: map<Id, seq<Id>>)
    requires Lists(g, all, lists)
    ensures forall x :: UnderSome(g, x, all) <==> Rooted(g, x)
  {
    hide NoRepeats;
    forall x
      ensures UnderSome(g, x, all) <==> Rooted(g, x)
    {
      if Rooted(g, x) {
        assert PathTo(g, x)[0] in all && Under(g, x, PathTo(g, x)[0]);
      }
    }
  }
}
