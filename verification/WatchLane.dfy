/**
 What a watcher reads of lanes that run the lane protocol. Its shared lock pins every lane it watches, and
 the state it prints is the lane's own at that moment, though its readings are spread over several.
 */
module WatchLane {
  import opened Options
  import opened LaneVerdict
  import opened LaneProtocol
  import opened LaneTheorems
  import opened LaneStability
  import W = Watch

  /** A lane's run, and which of its shared lock holders the watcher is. */
  datatype Lease = Lease(run: seq<Lane>, holder: nat)

  /** The moments of one visit: the lock and its reading of meta, the verification, classify's three readings. */
  datatype Moments = Moments(locked: nat, verified: nat, first: nat, second: nat, third: nat)

  predicate InOrder(r: seq<Lane>, m: Moments) {
    m.locked <= m.verified <= m.first <= m.second <= m.third < |r|
  }

  /** The reply and log names that meta gives; `mint` names the files of a generation. */
  function NamesIn(mint: nat -> W.Names, s: Lane): W.Names {
    if s.disk.meta.Some? then mint(s.disk.meta.value.gen) else W.NO_NAMES
  }

  /** A visit's look is what its readings found. */
  predicate Reads(mint: nat -> W.Names, r: seq<Lane>, m: Moments, look: W.Look) {
    && InOrder(r, m)
    && (look.lockFree ==> look.locked == NamesIn(mint, r[m.locked]))
    && look.names == NamesIn(mint, r[m.verified])
    && look.verdict == VerdictAt(r, m.first, m.second, m.third)
  }

  /** The shape of a watch: a run for every watched lane, and moments for every visit. */
  predicate Shape(watched: seq<W.Dir>, looks: seq<seq<W.Look>>, lanes: map<W.Dir, Lease>, at: seq<seq<Moments>>) {
    && W.Table(watched, looks) && |at| == |looks|
    && (forall t :: 0 <= t < |at| ==> |at[t]| == |watched|)
    && (forall k :: 0 <= k < |watched| ==> watched[k] in lanes)
  }

  /** Visit (t, k) is to an unsettled lane. */
  ghost predicate Visits(watched: seq<W.Dir>, looks: seq<seq<W.Look>>, t: nat, k: nat)
    requires W.Table(watched, looks)
  {
    t < |looks| && k < |watched| && !W.Over(watched, looks, watched[k], t, k)
  }

  /** A locked lane is read as its run shows it, and a missing directory has no names. */
  ghost predicate Faithful(mint: nat -> W.Names, watched: seq<W.Dir>, looks: seq<seq<W.Look>>, lanes: map<W.Dir, Lease>, at: seq<seq<Moments>>)
    requires Shape(watched, looks, lanes, at)
  {
    forall t: nat, k: nat :: Visits(watched, looks, t, k) ==>
      if W.Locked(watched, looks, watched[k], t, k) then Reads(mint, lanes[watched[k]].run, at[t][k], looks[t][k])
      else !looks[t][k].isDir ==> looks[t][k].names == W.NO_NAMES
  }

  /** From the visit that takes a lane's lock, the watcher keeps it through every visit until the lane settles. */
  ghost predicate KeepsLocks(watched: seq<W.Dir>, looks: seq<seq<W.Look>>, lanes: map<W.Dir, Lease>, at: seq<seq<Moments>>)
    requires Shape(watched, looks, lanes, at)
  {
    forall t: nat, k: nat, t': nat, k': nat {:trigger W.Takes(watched, looks, watched[k'], t, k), Visits(watched, looks, t', k')} ::
      Visits(watched, looks, t', k') && W.Takes(watched, looks, watched[k'], t, k) && !W.Earlier(t', k', t, k) ==>
        var lease := lanes[watched[k']];
        at[t][k].locked <= at[t'][k'].verified && HeldBy(lease.run, lease.holder, at[t][k].locked, at[t'][k'].third)
  }

  /** Every watched lane follows the protocol under no faults, and the watcher reads it and keeps its locks. */
  ghost predicate Watches(mint: nat -> W.Names, watched: seq<W.Dir>, looks: seq<seq<W.Look>>, lanes: map<W.Dir, Lease>, at: seq<seq<Moments>>) {
    && Shape(watched, looks, lanes, at) && Faithful(mint, watched, looks, lanes, at) && KeepsLocks(watched, looks, lanes, at)
    && forall d :: d in lanes ==> Run(NO_FAULTS, lanes[d].run)
  }

  /** The shared locks of a watch pin the lanes it watches. */
  lemma LocksPin(mint: nat -> W.Names, watched: seq<W.Dir>, looks: seq<seq<W.Look>>, lanes: map<W.Dir, Lease>, at: seq<seq<Moments>>)
    requires Watches(mint, watched, looks, lanes, at)
    ensures W.Pinned(watched, looks)
  {
    forall t: nat, k: nat
      ensures !W.Clashes(watched, looks, t, k)
    {
      if Visits(watched, looks, t, k) {
        VisitPinned(mint, watched, looks, lanes, at, t, k);
      }
    }
  }

  lemma VisitPinned(mint: nat -> W.Names, watched: seq<W.Dir>, looks: seq<seq<W.Look>>, lanes: map<W.Dir, Lease>, at: seq<seq<Moments>>, t: nat, k: nat)
    requires Watches(mint, watched, looks, lanes, at) && Visits(watched, looks, t, k)
    ensures W.SameNames(watched, looks, t, k)
  {
    var d := watched[k];
    forall t0: nat, k0: nat | W.Takes(watched, looks, d, t0, k0) && !W.Earlier(t, k, t0, k0)
      ensures looks[t][k].names == looks[t0][k0].locked
    {
      NotOverYet(watched, looks, d, t, k, t0, k0);
      assert W.Locked(watched, looks, d, t0, k0) && W.Locked(watched, looks, d, t, k);
      assert Visits(watched, looks, t0, k0);
      var r, a := lanes[d].run, lanes[d].holder;
      hide Run, W.Takes, W.Locked, W.Over, HeldBy;
      assert HeldBy(r, a, at[t0][k0].locked, at[t][k].third);
      assert HeldBy(r, a, at[t0][k0].locked, at[t][k].verified) by { HeldSooner(r, a, at[t0][k0].locked, at[t][k].third, at[t][k].verified); }
      RunOnward(r, a, at[t0][k0].locked, at[t][k].verified);
    }
  }

  lemma HeldSooner(r: seq<Lane>, a: nat, i: nat, j: nat, k: nat)
    requires HeldBy(r, a, i, j) && k <= j
    ensures HeldBy(r, a, i, k)
  {
  }

  /** A lane that is not settled yet was not settled before either, and stays locked once it was. */
  lemma NotOverYet(watched: seq<W.Dir>, looks: seq<seq<W.Look>>, d: W.Dir, t: nat, k: nat, t0: nat, k0: nat)
    requires W.Table(watched, looks) && !W.Over(watched, looks, d, t, k) && !W.Earlier(t, k, t0, k0)
    ensures !W.Over(watched, looks, d, t0, k0)
    ensures W.Frees(watched, looks, d, t0, k0) ==> W.Locked(watched, looks, d, t, k)
  {
    W.StaysShown(watched, looks, d, t0, k0, t, k);
  }

  /** Some visit up to a locked one took the lock. */
  lemma {:induction false} TakenSomewhere(watched: seq<W.Dir>, looks: seq<seq<W.Look>>, d: W.Dir, t: nat, k: nat) returns (t0: nat, k0: nat)
    requires W.Table(watched, looks) && W.Locked(watched, looks, d, t, k)
    ensures W.Takes(watched, looks, d, t0, k0) && !W.Earlier(t, k, t0, k0)
    decreases t, k
  {
    if W.Freed(watched, looks, d, t, k) {
      var u: nat, v: nat :| W.Frees(watched, looks, d, u, v) && W.Earlier(u, v, t, k);
      t0, k0 := TakenSomewhere(watched, looks, d, u, v);
    } else {
      t0, k0 := t, k;
    }
  }

  /** The state printed for a locked lane is the lane's own when its last reading is made. */
  lemma PrintsCurrentState(mint: nat -> W.Names, watched: seq<W.Dir>, looks: seq<seq<W.Look>>, lanes: map<W.Dir, Lease>, at: seq<seq<Moments>>, e: W.Emission)
    requires Watches(mint, watched, looks, lanes, at)
    requires W.FirstSettled(watched, looks, e) && W.Locked(watched, looks, e.dir, e.round, e.at)
    ensures at[e.round][e.at].third < |lanes[e.dir].run|
    ensures looks[e.round][e.at].verdict == VerdictOf(lanes[e.dir].run[at[e.round][e.at].third])
  {
    var t0, k0 := TakenSomewhere(watched, looks, e.dir, e.round, e.at);
    assert Visits(watched, looks, e.round, e.at) && W.Takes(watched, looks, watched[e.at], t0, k0);
    var r, m := lanes[e.dir].run, at[e.round][e.at];
    assert Reads(mint, r, m, looks[e.round][e.at]);
    assert HeldBy(r, lanes[e.dir].holder, at[t0][k0].locked, m.third) && at[t0][k0].locked <= m.verified;
    hide W.Takes, W.Locked, W.Over, W.Freed, W.Settles, W.FirstSettled, Faithful, KeepsLocks, Visits, VerdictAt, VerdictOf, Run, W.Table;
    StaysTrue(r, lanes[e.dir].holder, m.first, m.second, m.third);
  }

  lemma StaysTrue(r: seq<Lane>, a: nat, i: nat, j: nat, k: nat)
    requires Run(NO_FAULTS, r) && i <= j <= k < |r| && HeldBy(r, a, i, k) && Settled(VerdictAt(r, i, j, k))
    ensures VerdictAt(r, i, j, k) == VerdictOf(r[k])
  {
    hide Run;
    VerdictNeverChanges(r);
    assert VerdictAt(r, k, k, k) == VerdictAt(r, i, j, k);
  }
}
