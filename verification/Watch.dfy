/** `--watch`: one record per lane, when it settles, under shared locks held until then. */
module Watch {
  import opened Options
  import opened LaneVerdict

  type Dir = string
  type Names = (string, string)

  /**
   What the watcher would find on one visit to one lane: whether the lock can be taken, whether there is
   a directory, the reply and log names read with the lock, those verified on the visit, the verdict.
   */
  datatype Look = Look(lockFree: bool, isDir: bool, locked: Names, names: Names, verdict: Verdict)

  /** A record printed on the visit to position `at` in round `round`. */
  datatype Emission = Emission(dir: Dir, round: nat, at: nat)

  datatype Outcome = AllSettled | Reused(dir: Dir) | StillWaiting

  const NO_NAMES: Names := ("", "")

  /** One row per polling round, one look per watched position. */
  predicate Table(watched: seq<Dir>, looks: seq<seq<Look>>) {
    forall t :: 0 <= t < |looks| ==> |looks[t]| == |watched|
  }

  predicate Earlier(t: nat, k: nat, t': nat, k': nat) {
    t < t' || (t == t' && k < k')
  }

  // ----- the visits that matter to lane d

  /** Visit (t, k) is to `d` and finds its lock free. */
  predicate Frees(watched: seq<Dir>, looks: seq<seq<Look>>, d: Dir, t: nat, k: nat)
    requires Table(watched, looks)
  {
    t < |looks| && k < |watched| && watched[k] == d && looks[t][k].lockFree
  }

  /** A visit to `d` before (t, k) found its lock free. */
  ghost predicate Freed(watched: seq<Dir>, looks: seq<seq<Look>>, d: Dir, t: nat, k: nat)
    requires Table(watched, looks)
  {
    exists t': nat, k': nat :: Frees(watched, looks, d, t', k') && Earlier(t', k', t, k)
  }

  /** The watcher has the lock of `d` when visit (t, k) classifies it. */
  ghost predicate Locked(watched: seq<Dir>, looks: seq<seq<Look>>, d: Dir, t: nat, k: nat)
    requires Table(watched, looks)
  {
    Freed(watched, looks, d, t, k) || Frees(watched, looks, d, t, k)
  }

  /** Visit (t, k) takes the lock of `d`: the first that can. */
  ghost predicate Takes(watched: seq<Dir>, looks: seq<seq<Look>>, d: Dir, t: nat, k: nat)
    requires Table(watched, looks)
  {
    Frees(watched, looks, d, t, k) && !Freed(watched, looks, d, t, k)
  }

  /** Visit (t, k) classifies `d`, under its lock or without a directory, and finds it settled. */
  ghost predicate Settles(watched: seq<Dir>, looks: seq<seq<Look>>, d: Dir, t: nat, k: nat)
    requires Table(watched, looks)
  {
    && t < |looks| && k < |watched| && watched[k] == d
    && Settled(looks[t][k].verdict) && (Locked(watched, looks, d, t, k) || !looks[t][k].isDir)
  }

  /** A visit before (t, k) settled `d`. */
  ghost predicate Over(watched: seq<Dir>, looks: seq<seq<Look>>, d: Dir, t: nat, k: nat)
    requires Table(watched, looks)
  {
    exists t': nat, k': nat :: Settles(watched, looks, d, t', k') && Earlier(t', k', t, k)
  }

  /** The names verified are those read with the lock; a missing directory has none. */
  ghost predicate SameNames(watched: seq<Dir>, looks: seq<seq<Look>>, t: nat, k: nat)
    requires Table(watched, looks) && t < |looks| && k < |watched|
  {
    var d := watched[k];
    && (!Locked(watched, looks, d, t, k) && !looks[t][k].isDir ==> looks[t][k].names == ("", ""))
    && (forall t0: nat, k0: nat :: Takes(watched, looks, d, t0, k0) && !Earlier(t, k, t0, k0) ==> looks[t][k].names == looks[t0][k0].locked)
  }

  /** Visit (t, k) finds an unsettled lane with names that moved. */
  ghost predicate Clashes(watched: seq<Dir>, looks: seq<seq<Look>>, t: nat, k: nat)
    requires Table(watched, looks)
  {
    t < |looks| && k < |watched| && !Over(watched, looks, watched[k], t, k) && !SameNames(watched, looks, t, k)
  }

  /** The visit to `d` in round `t` is the first of all visits that clashes. */
  ghost predicate FirstClash(watched: seq<Dir>, looks: seq<seq<Look>>, d: Dir, t: nat)
    requires Table(watched, looks)
  {
    exists k: nat :: k < |watched| && watched[k] == d && Clashes(watched, looks, t, k)
      && forall u: nat, j: nat :: Earlier(u, j, t, k) ==> !Clashes(watched, looks, u, j)
  }

  /** Visit (t, k) finds its lane busy or unsettled. */
  ghost predicate Waits(watched: seq<Dir>, looks: seq<seq<Look>>, t: nat, k: nat)
    requires Table(watched, looks)
  {
    && t < |looks| && k < |watched|
    && !Over(watched, looks, watched[k], t, k) && !Settles(watched, looks, watched[k], t, k)
  }

  ghost predicate SomeWait(watched: seq<Dir>, looks: seq<seq<Look>>, t: nat)
    requires Table(watched, looks)
  {
    exists k: nat :: Waits(watched, looks, t, k)
  }

  /** From the visit that takes a lane's lock until the lane settles, its names stay. */
  ghost predicate Pinned(watched: seq<Dir>, looks: seq<seq<Look>>)
    requires Table(watched, looks)
  {
    forall t: nat, k: nat :: !Clashes(watched, looks, t, k)
  }

  // ----- what has been printed

  /** No lane is printed twice, and the records come in the order of the visits. */
  predicate OnceInOrder(emitted: seq<Emission>) {
    forall i, j :: 0 <= i < j < |emitted| ==>
      emitted[i].dir != emitted[j].dir && Earlier(emitted[i].round, emitted[i].at, emitted[j].round, emitted[j].at)
  }

  function Dirs(emitted: seq<Emission>): set<Dir> {
    set i | 0 <= i < |emitted| :: emitted[i].dir
  }

  /** The record comes from the first visit that settles its lane. */
  ghost predicate FirstSettled(watched: seq<Dir>, looks: seq<seq<Look>>, e: Emission)
    requires Table(watched, looks)
  {
    Settles(watched, looks, e.dir, e.round, e.at) && !Over(watched, looks, e.dir, e.round, e.at)
  }

  lemma DirsGrow(emitted: seq<Emission>, e: Emission)
    ensures Dirs(emitted + [e]) == Dirs(emitted) + {e.dir}
  {
    var more := emitted + [e];
    assert more[|emitted|] == e;
    forall d | d in Dirs(emitted)
      ensures d in Dirs(more)
    {
      var i :| 0 <= i < |emitted| && emitted[i].dir == d;
      assert more[i].dir == d;
    }
  }

  // ----- watchMode's books

  datatype Books = Books(settled: set<Dir>, locks: set<Dir>, gens: map<Dir, Names>, emitted: seq<Emission>)

  /** The lock of `d` was taken on a visit before (t, k), which read these names. */
  ghost predicate TakenWith(watched: seq<Dir>, looks: seq<seq<Look>>, d: Dir, names: Names, t: nat, k: nat)
    requires Table(watched, looks)
  {
    exists t': nat, k': nat :: Takes(watched, looks, d, t', k') && Earlier(t', k', t, k) && looks[t'][k'].locked == names
  }

  /** The books know of `d` what the visits before (t, k) showed. */
  ghost predicate Knows(watched: seq<Dir>, looks: seq<seq<Look>>, b: Books, d: Dir, t: nat, k: nat)
    requires Table(watched, looks)
  {
    && (d in b.settled <==> Over(watched, looks, d, t, k))
    && (d !in b.settled ==> (d in b.locks <==> Freed(watched, looks, d, t, k)) && (d in b.locks <==> d in b.gens))
    && (d in b.locks ==> d in b.gens && TakenWith(watched, looks, d, b.gens[d], t, k))
  }

  /** The books after every visit before (t, k). */
  ghost predicate Kept(watched: seq<Dir>, looks: seq<seq<Look>>, b: Books, t: nat, k: nat)
    requires Table(watched, looks)
  {
    && OnceInOrder(b.emitted) && b.settled == Dirs(b.emitted)
    && (forall i :: 0 <= i < |b.emitted| ==> FirstSettled(watched, looks, b.emitted[i]))
    && (forall i :: 0 <= i < |b.emitted| ==> Earlier(b.emitted[i].round, b.emitted[i].at, t, k))
    && (forall d :: Knows(watched, looks, b, d, t, k))
  }

  /** What earlier visits showed stays shown. */
  lemma StaysShown(watched: seq<Dir>, looks: seq<seq<Look>>, d: Dir, t: nat, k: nat, t': nat, k': nat)
    requires Table(watched, looks)
    requires forall u: nat, v: nat :: v < |watched| && Earlier(u, v, t, k) ==> Earlier(u, v, t', k')
    ensures Over(watched, looks, d, t, k) ==> Over(watched, looks, d, t', k')
    ensures Freed(watched, looks, d, t, k) ==> Freed(watched, looks, d, t', k')
    ensures forall names :: TakenWith(watched, looks, d, names, t, k) ==> TakenWith(watched, looks, d, names, t', k')
  {
  }

  /** What one more visit adds. */
  lemma OneVisit(watched: seq<Dir>, looks: seq<seq<Look>>, d: Dir, t: nat, k: nat)
    requires Table(watched, looks)
    ensures Over(watched, looks, d, t, k + 1) <==> Over(watched, looks, d, t, k) || Settles(watched, looks, d, t, k)
    ensures Freed(watched, looks, d, t, k + 1) <==> Freed(watched, looks, d, t, k) || Frees(watched, looks, d, t, k)
    ensures forall names :: TakenWith(watched, looks, d, names, t, k) ==> TakenWith(watched, looks, d, names, t, k + 1)
  {
    StaysShown(watched, looks, d, t, k, t, k + 1);
    hide Settles, Frees, Takes;
    assert forall u: nat, v: nat :: Earlier(u, v, t, k + 1) ==> (u == t && v == k) || Earlier(u, v, t, k);
    assert Earlier(t, k, t, k + 1);
  }

  /** A round ends where the next begins. */
  lemma NextRound(watched: seq<Dir>, looks: seq<seq<Look>>, b: Books, t: nat)
    requires Table(watched, looks) && Kept(watched, looks, b, t, |watched|)
    ensures Kept(watched, looks, b, t + 1, 0)
  {
    var u := t + 1;
    forall d
      ensures Knows(watched, looks, b, d, u, 0)
    {
      assert Knows(watched, looks, b, d, t, |watched|);
      StaysShown(watched, looks, d, t, |watched|, u, 0);
      StaysShown(watched, looks, d, u, 0, t, |watched|);
    }
    hide Knows, FirstSettled, Dirs, OnceInOrder;
  }

  lemma NothingKept(watched: seq<Dir>, looks: seq<seq<Look>>)
    requires Table(watched, looks)
    ensures Kept(watched, looks, Books({}, {}, map[], []), 0, 0)
  {
  }

  /** A visit to a lane already emitted. */
  lemma KeptSkip(watched: seq<Dir>, looks: seq<seq<Look>>, b: Books, t: nat, k: nat)
    requires Table(watched, looks) && t < |looks| && k < |watched| && Kept(watched, looks, b, t, k) && watched[k] in b.settled
    ensures Kept(watched, looks, b, t, k + 1)
  {
    var n := k + 1;
    forall d
      ensures Knows(watched, looks, b, d, t, n)
    {
      assert Knows(watched, looks, b, d, t, k);
      OneVisit(watched, looks, d, t, k);
    }
    hide Knows, FirstSettled, Dirs, OnceInOrder;
  }

  /** The books once visit (t, k) has tried the lock. */
  function Tried(watched: seq<Dir>, looks: seq<seq<Look>>, b: Books, t: nat, k: nat): Books
    requires Table(watched, looks) && t < |looks| && k < |watched|
  {
    var d := watched[k];
    if d !in b.locks && looks[t][k].lockFree then b.(locks := b.locks + {d}, gens := b.gens[d := looks[t][k].locked]) else b
  }

  /** A visit that leaves its lane unsettled. */
  lemma KeptWait(watched: seq<Dir>, looks: seq<seq<Look>>, b: Books, t: nat, k: nat)
    requires Table(watched, looks) && t < |looks| && k < |watched| && Kept(watched, looks, b, t, k) && watched[k] !in b.settled
    requires !Settles(watched, looks, watched[k], t, k)
    ensures Kept(watched, looks, Tried(watched, looks, b, t, k), t, k + 1)
  {
    var n := k + 1;
    var next := Tried(watched, looks, b, t, k);
    forall d
      ensures Knows(watched, looks, next, d, t, n)
    {
      assert Knows(watched, looks, b, d, t, k);
      OneVisit(watched, looks, d, t, k);
      hide Settles, Over, Freed;
      if d == watched[k] && d !in b.locks && looks[t][k].lockFree {
        assert Takes(watched, looks, d, t, k) && Earlier(t, k, t, n);
      }
    }
    hide Knows, FirstSettled, Dirs, OnceInOrder;
  }

  /** A visit that settles its lane. */
  lemma KeptEmit(watched: seq<Dir>, looks: seq<seq<Look>>, b: Books, t: nat, k: nat)
    requires Table(watched, looks) && t < |looks| && k < |watched| && Kept(watched, looks, b, t, k) && watched[k] !in b.settled
    requires Settles(watched, looks, watched[k], t, k)
    ensures var d := watched[k]; var next := Tried(watched, looks, b, t, k);
      Kept(watched, looks, Books(next.settled + {d}, next.locks - {d}, next.gens, next.emitted + [Emission(d, t, k)]), t, k + 1)
  {
    var n := k + 1;
    var tried := Tried(watched, looks, b, t, k);
    var e := Emission(watched[k], t, k);
    var next := Books(tried.settled + {e.dir}, tried.locks - {e.dir}, tried.gens, tried.emitted + [e]);
    forall d
      ensures Knows(watched, looks, next, d, t, n)
    {
      assert Knows(watched, looks, b, d, t, k);
      OneVisit(watched, looks, d, t, k);
    }
    assert FirstSettled(watched, looks, e) by { assert Knows(watched, looks, b, e.dir, t, k); }
    hide Knows, FirstSettled;
    DirsGrow(b.emitted, e);
    forall i | 0 <= i < |b.emitted|
      ensures b.emitted[i].dir != e.dir
    {
      assert b.emitted[i].dir in Dirs(b.emitted);
    }
    hide Dirs;
  }

  lemma TakesOnce(watched: seq<Dir>, looks: seq<seq<Look>>, d: Dir, t: nat, k: nat, t': nat, k': nat)
    requires Table(watched, looks) && Takes(watched, looks, d, t, k) && Takes(watched, looks, d, t', k')
    ensures t == t' && k == k'
  {
    assert Earlier(t, k, t', k') || Earlier(t', k', t, k) || (t == t' && k == k');
  }

  /** verifyGeneration's comparison, for a lane that is locked or has no directory. */
  lemma ClashExactly(watched: seq<Dir>, looks: seq<seq<Look>>, b: Books, t: nat, k: nat)
    requires Table(watched, looks) && t < |looks| && k < |watched| && Kept(watched, looks, b, t, k) && watched[k] !in b.settled
    requires Locked(watched, looks, watched[k], t, k) || !looks[t][k].isDir
    ensures var d := watched[k]; var gens := Tried(watched, looks, b, t, k).gens;
      Clashes(watched, looks, t, k) <==> looks[t][k].names != if d in gens then gens[d] else NO_NAMES
  {
    var d := watched[k];
    assert Knows(watched, looks, b, d, t, k);
    hide Settles, Over;
    forall t': nat, k': nat, u: nat, v: nat | Takes(watched, looks, d, t', k') && Takes(watched, looks, d, u, v)
      ensures t' == u && k' == v
    {
      TakesOnce(watched, looks, d, t', k', u, v);
    }
    assert forall u: nat, v: nat :: !Earlier(t, k, u, v) ==> (u == t && v == k) || Earlier(u, v, t, k);
    assert !Earlier(t, k, t, k);
  }

  /** A busy lane is unsettled by definition. */
  lemma BusyWaits(watched: seq<Dir>, looks: seq<seq<Look>>, t: nat, k: nat)
    requires Table(watched, looks) && t < |looks| && k < |watched|
    requires !Locked(watched, looks, watched[k], t, k) && looks[t][k].isDir
    ensures !Settles(watched, looks, watched[k], t, k) && !Clashes(watched, looks, t, k)
  {
    assert forall u: nat, v: nat :: !Earlier(t, k, u, v) ==> (u == t && v == k) || Earlier(u, v, t, k);
  }

  // ----- the loops

  /** One visit to one lane. */
  method Visit(watched: seq<Dir>, looks: seq<seq<Look>>, t: nat, k: nat, b: Books) returns (next: Books, waits: bool, clash: bool)
    requires Table(watched, looks) && t < |looks| && k < |watched| && Kept(watched, looks, b, t, k)
    ensures clash <==> Clashes(watched, looks, t, k)
    ensures clash ==> next.emitted == b.emitted
    ensures !clash ==> Kept(watched, looks, next, t, k + 1) && b.settled <= next.settled
    ensures !clash ==> (waits <==> Waits(watched, looks, t, k)) && (waits || watched[k] in next.settled)
    ensures next.emitted == b.emitted || next.emitted == b.emitted + [Emission(watched[k], t, k)]
  {
    next, waits, clash := b, false, false;
    var d := watched[k];
    var look := looks[t][k];
    assert Knows(watched, looks, b, d, t, k);
    hide Knows, Dirs, SameNames, FirstSettled;
    if d in next.settled {
      KeptSkip(watched, looks, b, t, k);
      return;
    }
    if d !in next.locks && look.lockFree {
      next := next.(locks := next.locks + {d}, gens := next.gens[d := look.locked]);
    }
    if d !in next.locks && look.isDir {
      BusyWaits(watched, looks, t, k);
      KeptWait(watched, looks, b, t, k);
      return next, true, false;
    }
    ClashExactly(watched, looks, b, t, k);
    var names := if d in next.gens then next.gens[d] else NO_NAMES;
    if look.names != names {
      return next, false, true;
    }
    if !Settled(look.verdict) {
      KeptWait(watched, looks, b, t, k);
      return next, true, false;
    }
    KeptEmit(watched, looks, b, t, k);
    next := next.(settled := next.settled + {d}, emitted := next.emitted + [Emission(d, t, k)], locks := next.locks - {d});
  }

  lemma OnlyWatched(watched: seq<Dir>, looks: seq<seq<Look>>, t: nat)
    requires Table(watched, looks)
    ensures forall j: nat :: Clashes(watched, looks, t, j) || Waits(watched, looks, t, j) ==> j < |watched|
  {
  }

  /** One round over the watched lanes, as far as position `at`; `done` when no visit found a lane waiting. */
  method Round(watched: seq<Dir>, looks: seq<seq<Look>>, t: nat, before: Books) returns (b: Books, done: bool, at: nat)
    requires Table(watched, looks) && t < |looks| && Kept(watched, looks, before, t, 0)
    ensures at <= |watched| && Kept(watched, looks, b, t, at)
    ensures forall j: nat :: j < at ==> !Clashes(watched, looks, t, j)
    ensures at < |watched| ==> Clashes(watched, looks, t, at)
    ensures at == |watched| ==> (done <==> !SomeWait(watched, looks, t))
    ensures at == |watched| && done ==> forall j :: 0 <= j < |watched| ==> watched[j] in Dirs(b.emitted)
  {
    hide Knows, Dirs, FirstSettled, Waits, Clashes;
    b, done, at := before, true, 0;
    while at < |watched|
      invariant at <= |watched| && Kept(watched, looks, b, t, at)
      invariant forall j: nat :: j < at ==> !Clashes(watched, looks, t, j)
      invariant done <==> forall j: nat :: j < at ==> !Waits(watched, looks, t, j)
      invariant done ==> forall j :: 0 <= j < at ==> watched[j] in b.settled
    {
      var next, waits, clash := Visit(watched, looks, t, at, b);
      if clash {
        return;
      }
      b, done, at := next, done && !waits, at + 1;
    }
    OnlyWatched(watched, looks, t);
  }

  /**
   Watches for at most |looks| rounds. Each lane is printed once, on the first visit that finds it settled,
   and nothing is printed otherwise. The watch ends well with the first round that finds no lane waiting,
   when every lane has been printed, and ends in `Reused` on exactly the first visit that finds other names.
   */
  method WatchMode(watched: seq<Dir>, looks: seq<seq<Look>>) returns (emitted: seq<Emission>, outcome: Outcome, rounds: nat)
    requires Table(watched, looks)
    ensures rounds <= |looks|
    ensures forall i, j :: 0 <= i < j < |emitted| ==> emitted[i].dir != emitted[j].dir
    ensures forall i, j :: 0 <= i < j < |emitted| ==> Earlier(emitted[i].round, emitted[i].at, emitted[j].round, emitted[j].at)
    ensures forall i :: 0 <= i < |emitted| ==> FirstSettled(watched, looks, emitted[i]) && emitted[i].round < rounds
    ensures !outcome.Reused? ==> forall t: nat, k: nat :: t < rounds ==> !Clashes(watched, looks, t, k)
    ensures !outcome.Reused? ==> forall d :: d in Dirs(emitted) <==> Over(watched, looks, d, rounds, 0)
    ensures forall t: nat :: t < rounds - 1 ==> SomeWait(watched, looks, t)
    ensures outcome.AllSettled? ==> 0 < rounds && !SomeWait(watched, looks, rounds - 1)
    ensures outcome.AllSettled? ==> forall j :: 0 <= j < |watched| ==> watched[j] in Dirs(emitted)
    ensures outcome.StillWaiting? ==> rounds == |looks| && (0 < rounds ==> SomeWait(watched, looks, rounds - 1))
    ensures outcome.Reused? ==> 0 < rounds && FirstClash(watched, looks, outcome.dir, rounds - 1)
  {
    hide Knows, SomeWait, FirstSettled, Dirs, Clashes;
    var b := Books({}, {}, map[], []);
    NothingKept(watched, looks);
    rounds := 0;
    while rounds < |looks|
      invariant rounds <= |looks| && Kept(watched, looks, b, rounds, 0)
      invariant forall t: nat :: t < rounds ==> SomeWait(watched, looks, t)
      invariant forall t: nat, k: nat :: t < rounds ==> !Clashes(watched, looks, t, k)
    {
      var next, done, at := Round(watched, looks, rounds, b);
      b, rounds := next, rounds + 1;
      if at < |watched| {
        return b.emitted, Reused(watched[at]), rounds;
      }
      OnlyWatched(watched, looks, rounds - 1);
      NextRound(watched, looks, b, rounds - 1);
      if done {
        EmittedIsOver(watched, looks, b, rounds);
        return b.emitted, AllSettled, rounds;
      }
    }
    EmittedIsOver(watched, looks, b, rounds);
    return b.emitted, StillWaiting, rounds;
  }

  lemma EmittedIsOver(watched: seq<Dir>, looks: seq<seq<Look>>, b: Books, t: nat)
    requires Table(watched, looks) && Kept(watched, looks, b, t, 0)
    ensures forall d :: d in Dirs(b.emitted) <==> Over(watched, looks, d, t, 0)
  {
    hide Dirs, FirstSettled, Over;
    forall d
      ensures d in Dirs(b.emitted) <==> Over(watched, looks, d, t, 0)
    {
      assert Knows(watched, looks, b, d, t, 0);
    }
  }
}
