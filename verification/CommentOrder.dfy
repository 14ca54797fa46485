/** Comment records and the order cmtFold sorts them in. A missing field is "". */
module CommentOrder {
  type Id = string

  datatype Rec = Rec(id: Id, createdAt: string, supersedes: Id, resolves: Id, parent: Id, rev: int, author: string, body: string, anchor: string)

  // ----- order

  predicate LexLess(a: string, b: string) {
    if b == "" then false
    else if a == "" then true
    else a[0] < b[0] || (a[0] == b[0] && LexLess(a[1..], b[1..]))
  }

  /** cmtOrder: by creation, then by id. */
  predicate Less(a: Rec, b: Rec) {
    if a.createdAt == b.createdAt then LexLess(a.id, b.id) else LexLess(a.createdAt, b.createdAt)
  }

  predicate DistinctIds(s: seq<Rec>) {
    forall i, j :: 0 <= i < j < |s| ==> s[i].id != s[j].id
  }

  predicate Sorted(s: seq<Rec>) {
    forall i, j :: 0 <= i < j < |s| ==> Less(s[i], s[j])
  }

  lemma {:induction false} LexTotal(a: string, b: string)
    ensures !(LexLess(a, b) && LexLess(b, a))
    ensures a != b ==> LexLess(a, b) || LexLess(b, a)
  {
    if a != "" && b != "" {
      LexTotal(a[1..], b[1..]);
      if a[1..] == b[1..] && a[0] == b[0] {
        assert a == [a[0]] + a[1..] && b == [b[0]] + b[1..];
      }
    }
  }

  lemma {:induction false} LexTransitive(a: string, b: string, c: string)
    requires LexLess(a, b) && LexLess(b, c)
    ensures LexLess(a, c)
  {
    if a != "" && a[0] == b[0] && b[0] == c[0] {
      LexTransitive(a[1..], b[1..], c[1..]);
    }
  }

  lemma LessTotal(a: Rec, b: Rec)
    ensures !(Less(a, b) && Less(b, a))
    ensures a.id != b.id ==> Less(a, b) || Less(b, a)
  {
    LexTotal(a.id, b.id);
    LexTotal(a.createdAt, b.createdAt);
  }

  lemma LessTransitive(a: Rec, b: Rec, c: Rec)
    requires Less(a, b) && Less(b, c)
    ensures Less(a, c)
  {
    LexTotal(a.createdAt, b.createdAt);
    if a.createdAt == b.createdAt == c.createdAt {
      LexTransitive(a.id, b.id, c.id);
    } else if a.createdAt != b.createdAt && b.createdAt != c.createdAt {
      LexTransitive(a.createdAt, b.createdAt, c.createdAt);
    }
  }

  function Insert(r: Rec, s: seq<Rec>): seq<Rec> {
    if s == [] || Less(r, s[0]) then [r] + s else [s[0]] + Insert(r, s[1..])
  }

  /** The records in cmtOrder; the library's sort is modelled by the sorted order itself. */
  function Sort(records: seq<Rec>): seq<Rec> {
    if records == [] then [] else Insert(records[0], Sort(records[1..]))
  }

  lemma {:induction false} InsertKeeps(r: Rec, s: seq<Rec>)
    ensures multiset(Insert(r, s)) == multiset{r} + multiset(s)
  {
    hide Less;
    if s != [] && !Less(r, s[0]) {
      InsertKeeps(r, s[1..]);
      assert s == [s[0]] + s[1..];
    }
  }

  predicate LessThanAll(r: Rec, s: seq<Rec>) {
    forall i :: 0 <= i < |s| ==> Less(r, s[i])
  }

  lemma SortedCons(r: Rec, s: seq<Rec>)
    requires Sorted(s) && LessThanAll(r, s)
    ensures Sorted([r] + s)
  {
    hide Less;
  }

  lemma LessThanInserted(x: Rec, r: Rec, s: seq<Rec>)
    requires Less(x, r) && LessThanAll(x, s)
    ensures LessThanAll(x, Insert(r, s))
  {
    hide Less, Insert;
    InsertKeeps(r, s);
    var t := Insert(r, s);
    forall i | 0 <= i < |t|
      ensures Less(x, t[i])
    {
      assert t[i] in multiset(t);
    }
  }

  lemma {:induction false} InsertSorts(r: Rec, s: seq<Rec>)
    requires Sorted(s) && forall i :: 0 <= i < |s| ==> s[i].id != r.id
    ensures Sorted(Insert(r, s))
  {
    hide Less;
    if s == [] || Less(r, s[0]) {
      forall i | 0 <= i < |s|
        ensures Less(r, s[i])
      {
        if i > 0 { LessTransitive(r, s[0], s[i]); }
      }
      SortedCons(r, s);
    } else {
      InsertSorts(r, s[1..]);
      LessTotal(r, s[0]);
      LessThanInserted(s[0], r, s[1..]);
      SortedCons(s[0], Insert(r, s[1..]));
    }
  }

  lemma {:induction false} SortSorts(records: seq<Rec>)
    requires DistinctIds(records)
    ensures multiset(Sort(records)) == multiset(records) && Sorted(Sort(records)) && DistinctIds(Sort(records))
    ensures |Sort(records)| == |records|
  {
    if records != [] {
      var rest := Sort(records[1..]);
      SortSorts(records[1..]);
      assert records == [records[0]] + records[1..];
      forall i | 0 <= i < |rest| ensures rest[i].id != records[0].id {
        assert rest[i] in multiset(records[1..]);
      }
      InsertKeeps(records[0], rest);
      InsertSorts(records[0], rest);
    }
    var s := Sort(records);
    assert |s| == |multiset(s)| == |multiset(records)|;
    forall i, j | 0 <= i < j < |s| ensures s[i].id != s[j].id {
      DistinctInPermutation(records, s, i, j);
    }
  }

  lemma DistinctInPermutation(records: seq<Rec>, s: seq<Rec>, i: nat, j: nat)
    requires DistinctIds(records) && multiset(s) == multiset(records) && Sorted(s) && i < j < |s|
    ensures s[i].id != s[j].id
  {
    assert s[i] in multiset(records) && s[j] in multiset(records);
    var a :| 0 <= a < |records| && records[a] == s[i];
    var b :| 0 <= b < |records| && records[b] == s[j];
    LessTotal(s[i], s[i]);
    assert s[i] != s[j];
  }

  lemma FirstIsLeast(a: seq<Rec>, b: seq<Rec>)
    requires Sorted(a) && Sorted(b) && multiset(a) == multiset(b) && a != [] && b != []
    ensures a[0] == b[0]
  {
    assert a[0] in multiset(b) && b[0] in multiset(a);
    var i :| 0 <= i < |b| && b[i] == a[0];
    var j :| 0 <= j < |a| && a[j] == b[0];
    hide Less;
    LessTotal(a[0], b[0]);
  }

  lemma TailsAgree(a: seq<Rec>, b: seq<Rec>)
    requires a != [] && b != [] && a[0] == b[0] && multiset(a) == multiset(b)
    ensures multiset(a[1..]) == multiset(b[1..])
  {
    assert a == [a[0]] + a[1..] && b == [b[0]] + b[1..];
    assert multiset(a[1..]) == multiset(a) - multiset{a[0]} == multiset(b[1..]);
  }

  lemma TailSorted(a: seq<Rec>)
    requires Sorted(a) && a != []
    ensures Sorted(a[1..])
  {
    hide Less;
  }

  /** Two orderings of the same records sort alike. */
  lemma {:induction false} SortedUnique(a: seq<Rec>, b: seq<Rec>)
    requires Sorted(a) && Sorted(b) && multiset(a) == multiset(b)
    ensures a == b
  {
    hide Less, Sorted;
    assert |a| == |multiset(a)| == |b|;
    if a != [] {
      FirstIsLeast(a, b);
      TailsAgree(a, b);
      TailSorted(a);
      TailSorted(b);
      SortedUnique(a[1..], b[1..]);
      assert a == [a[0]] + a[1..] && b == [b[0]] + b[1..];
    }
  }
}
