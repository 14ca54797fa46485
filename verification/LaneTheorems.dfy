/** The promises of the lane protocol, over every run and every interleaving. */
module LaneTheorems {
  import opened Options
  import opened LaneVerdict
  import opened LaneProtocol
  import opened LaneInvariant
  import opened LaneHistory

  const NO_FAULTS := Faults(false, false, false)

  lemma {:induction false} RunInv(f: Faults, r: seq<Lane>, i: nat)
    requires Run(f, r) && Reported(f) && i < |r|
    ensures Inv(r[i])
  {
    if i == 0 {
      InitInv(r[0]);
    } else {
      RunInv(f, r, i - 1);
      assert Next(f, r[i - 1], r[i]);
      var step :| Enabled(f, r[i - 1], step) && r[i] == Do(f, r[i - 1], step);
      StepInv(f, r[i - 1], step);
    }
  }

  lemma {:induction false} RunHistory(r: seq<Lane>, i: nat)
    requires Run(NO_FAULTS, r) && i < |r|
    ensures Inv(r[i]) && History(r[i])
    ensures i > 0 ==> Extends(r[i - 1].codes, r[i].codes)
  {
    RunInv(NO_FAULTS, r, i);
    if i == 0 {
      InitHistory(r[0]);
    } else {
      RunHistory(r, i - 1);
      assert Next(NO_FAULTS, r[i - 1], r[i]);
      var step :| Enabled(NO_FAULTS, r[i - 1], step) && r[i] == Do(NO_FAULTS, r[i - 1], step);
      StepHistory(NO_FAULTS, r[i - 1], step);
    }
  }

  lemma {:induction false} RunCodes(r: seq<Lane>, i: nat, j: nat)
    requires Run(NO_FAULTS, r) && i <= j < |r|
    ensures Extends(r[i].codes, r[j].codes)
    decreases j - i
  {
    hide Run, Inv, History;
    if i < j {
      RunCodes(r, i, j - 1);
      RunHistory(r, j);
    }
  }

  // ----- a worker writes only into its own generation

  /** Every status that a worker writes lands beside the meta of the generation that spawned it. */
  ghost predicate WritesHome(r: seq<Lane>) {
    forall i, g {:trigger RecordsAt(r, i, g)} :: 0 < i < |r| && RecordsAt(r, i, g) ==> IsGen(r[i - 1].disk, g)
  }

  /** Worker `g` writes its status in the step to moment `i`. */
  predicate RecordsAt(r: seq<Lane>, i: nat, g: nat)
    requires 0 < i < |r|
  {
    && g in r[i - 1].procs.workers && r[i - 1].procs.workers[g].pc.Ending?
    && g in r[i].procs.workers && r[i].procs.workers[g].pc.Finished?
  }

  /** Whoever may reset or delete the lane does so while no worker is alive without a status. */
  ghost predicate ResetsQuiet(r: seq<Lane>) {
    forall i :: 0 <= i < |r| && Clearing(r[i].lock) ==> Quiet(r[i].procs)
  }

  lemma OwnGeneration(f: Faults, r: seq<Lane>)
    requires Run(f, r) && Reported(f)
    ensures WritesHome(r) && ResetsQuiet(r)
  {
    forall i | 0 <= i < |r| ensures Inv(r[i]) { RunInv(f, r, i); }
    forall i: nat, g: nat {:trigger RecordsAt(r, i, g)} | 0 < i < |r| && RecordsAt(r, i, g)
      ensures IsGen(r[i - 1].disk, g)
    {
      assert Inv(r[i - 1]) && Unfinished(r[i - 1].procs.workers[g]);
      assert AtHome(r[i - 1].disk, r[i - 1].lock, r[i - 1].procs.workers[g], g);
    }
    forall i | 0 <= i < |r| && Clearing(r[i].lock)
      ensures Quiet(r[i].procs)
    {
      assert Inv(r[i]);
    }
  }

  // ----- a generation's status never changes

  ghost predicate StatusStable(r: seq<Lane>) {
    forall i, j :: 0 <= i <= j < |r| && BothRecorded(r[i].disk, r[j].disk) ==> r[j].disk.status == r[i].disk.status
  }

  /** Two moments of one generation, each with a status. */
  predicate BothRecorded(d: Disk, e: Disk) {
    d.meta.Some? && GenOf(e) == GenOf(d) && d.status.Some? && e.status.Some?
  }

  lemma StatusNeverChanges(r: seq<Lane>)
    requires Run(NO_FAULTS, r)
    ensures StatusStable(r)
  {
    forall i, j | 0 <= i <= j < |r| && BothRecorded(r[i].disk, r[j].disk)
      ensures r[j].disk.status == r[i].disk.status
    {
      RunHistory(r, i);
      RunHistory(r, j);
      RunCodes(r, i, j);
    }
  }

  // ----- what awaiters record, and when

  /** The poller that holder `a` runs, or the foreground dispatcher's own. */
  ghost predicate Polls(s: Lane, p: Poll) {
    || (s.lock.Shared? && exists a :: a in s.lock.holders && s.lock.holders[a] == Awaiting(p))
    || (Dispatching(s.lock) && s.lock.owner.pc == Polling(p))
  }

  lemma PollFacts(s: Lane, p: Poll)
    requires Inv(s) && History(s) && Polls(s, p)
    ensures PollOk(s.disk, s.procs, p) && PollCounts(s.disk, s.procs, p, s.now) && !MidRemoval(s.lock) && !InHandoff(s.lock)
  {
    if s.lock.Shared? {
      var a :| a in s.lock.holders && s.lock.holders[a] == Awaiting(p);
      assert ReaderOk(s.disk, s.procs, s.lock.holders[a]);
    }
  }

  /**
   A poller about to write finds its own generation, whose worker never started or was killed before it
   recorded a status; it writes 0 exactly when that worker had published a whole reply, over no other status.
   */
  lemma PollerRecordsLostWorkers(r: seq<Lane>, i: nat, p: Poll)
    requires Run(NO_FAULTS, r) && i < |r| && Polls(r[i], p) && p.pc.Record?
    ensures IsGen(r[i].disk, p.gen) && Lost(r[i].procs, p.gen)
    ensures r[i].disk.status.None? || r[i].disk.status == Some(p.pc.code)
    ensures p.pc.code == if r[i].disk.pid.Some? && ReplyWhole(r[i].disk, Some(p.gen)) then 0 else WORKER_LOST
    ensures r[i].disk.pid.None? ==> Expired(r[i].disk, r[i].now)
  {
    RunHistory(r, i);
    PollFacts(r[i], p);
  }

  /** No poller goes round a fifth time after its worker was killed without a status. */
  lemma RecordedWithinFourPolls(r: seq<Lane>, i: nat, p: Poll)
    requires Run(NO_FAULTS, r) && i < |r| && Polls(r[i], p) && p.pc.Verify?
    requires p.gen in r[i].procs.workers && r[i].procs.workers[p.gen].pc.Killed?
    ensures p.since < 4 || r[i].disk.status.Some?
  {
    RunHistory(r, i);
    PollFacts(r[i], p);
  }

  /** The status a poller writes leaves the lane's verdict as it was. */
  lemma RecoveryKeepsVerdict(r: seq<Lane>, i: nat, p: Poll)
    requires Run(NO_FAULTS, r) && i < |r| && Polls(r[i], p) && p.pc.Record?
    ensures VerdictOf(r[i].(disk := PollDisk(p, r[i].disk))) == VerdictOf(r[i])
  {
    var s := r[i];
    PollerRecordsLostWorkers(r, i, p);
    PollerSeesDead(r, i, p);
    hide Run, Inv, Polls;
    if s.disk.status.None? {
      WriteKeepsVerdict(s.disk, p.pc.code, s.now);
    } else {
      assert PollDisk(p, s.disk) == s.disk;
    }
  }

  lemma PollerSeesDead(r: seq<Lane>, i: nat, p: Poll)
    requires Run(NO_FAULTS, r) && i < |r| && Polls(r[i], p) && p.pc.Record?
    ensures !PidAlive(r[i].disk, r[i].procs)
  {
    RunHistory(r, i);
    PollFacts(r[i], p);
    if r[i].disk.pid.Some? { AliveMeansUp(r[i]); }
  }

  lemma WriteKeepsVerdict(d: Disk, code: nat, now: int)
    requires d.meta.Some? && d.status.None? && code == Recovered(d) && (d.pid.None? ==> Expired(d, now))
    ensures Classify(Observed(GenOf(d), false, Some(code), d.(status := Some(code)), now))
         == Classify(Observed(GenOf(d), false, None, d, now))
  {
    var v := Observed(GenOf(d), false, None, d, now);
    ItoaIsCanonical(code);
    ItoaIsCanonical(WORKER_LOST);
    hide Itoa;
    assert Itoa(code) == Recovery(v) by { if code == 0 { assert Itoa(code) == "0"; } }
    RecoveryPreservesVerdict(v);
  }

  /** A lock holder never finds another generation, and never finds the status gone when it reports. */
  lemma GenerationNeverReused(f: Faults, r: seq<Lane>, i: nat)
    requires Run(f, r) && Reported(f) && i < |r|
    ensures forall p :: Polls(r[i], p) ==> !p.pc.Reused? && IsGen(r[i].disk, p.gen) && (p.pc.Report? ==> r[i].disk.status.Some?)
    ensures forall a :: Holds(r[i].lock, a) && r[i].lock.holders[a].Watching? ==> r[i].lock.holders[a].seen == GenOf(r[i].disk)
  {
    RunInv(f, r, i);
    var s := r[i];
    forall p | Polls(s, p)
      ensures PollOk(s.disk, s.procs, p)
    {
      if s.lock.Shared? {
        var a :| a in s.lock.holders && s.lock.holders[a] == Awaiting(p);
        assert ReaderOk(s.disk, s.procs, s.lock.holders[a]);
      }
    }
    forall a | Holds(s.lock, a) && s.lock.holders[a].Watching?
      ensures s.lock.holders[a].seen == GenOf(s.disk)
    {
      assert ReaderOk(s.disk, s.procs, s.lock.holders[a]);
    }
  }

  // ----- what a success means

  /** A recorded 0 comes from a codex run that exited 0; a completed lane's reply is what that run staged. */
  lemma SuccessIsCodexSuccess(f: Faults, r: seq<Lane>, i: nat)
    requires Run(f, r) && Reported(f) && i < |r| && r[i].disk.meta.Some?
    ensures var s := r[i]; var g := s.disk.meta.value.gen;
      && (s.disk.status == Some(0) ==> ExitedZero(s.procs.codex, g))
      && (VerdictOf(s) == Completed ==>
            && g in s.disk.replies && s.disk.replies[g] != ""
            && g in s.procs.codex && s.procs.codex[g] == Exited(0, s.disk.replies[g]))
  {
    RunInv(f, r, i);
    hide Itoa;
  }

  // ----- the pruner

  /** A pruner deletes while no one else holds the lane and no worker is alive without a status. */
  lemma PrunerDeletesAlone(f: Faults, r: seq<Lane>, i: nat)
    requires Run(f, r) && Reported(f) && i < |r| && Pruning(r[i].lock) && r[i].lock.owner.scan.Deleting?
    ensures Quiet(r[i].procs) && forall a :: !Holds(r[i].lock, a)
  {
    RunInv(f, r, i);
    assert Clearing(r[i].lock);
  }

  /** A pruner starts to delete only a lane that still classifies completed, failed or no-run at that moment. */
  lemma PrunerDeletesTerminal(r: seq<Lane>, i: nat)
    requires Run(NO_FAULTS, r) && 0 < i < |r|
    requires Pruning(r[i].lock) && r[i].lock.owner.scan.Deleting? && !(Pruning(r[i - 1].lock) && r[i - 1].lock.owner.scan.Deleting?)
    ensures Pruning(r[i - 1].lock) && Terminal(VerdictOf(r[i - 1])) && r[i].disk == r[i - 1].disk
  {
    RunHistory(r, i - 1);
    var s := r[i - 1];
    assert Next(NO_FAULTS, s, r[i]);
    var step :| Enabled(NO_FAULTS, s, step) && r[i] == Do(NO_FAULTS, s, step);
    OnlyScanDeletes(NO_FAULTS, s, step);
    var ScanRest(g, alive, status) := s.lock.owner.scan;
    ScanIsCurrent(s, g, alive, status);
  }

  lemma OnlyScanDeletes(f: Faults, s: Lane, step: Step)
    requires Enabled(f, s, step)
    requires var t := Do(f, s, step); Pruning(t.lock) && t.lock.owner.scan.Deleting? && !(Pruning(s.lock) && s.lock.owner.scan.Deleting?)
    ensures step == ByPruner(ScanMore) && s.lock.owner.scan.ScanRest? && Do(f, s, step).disk == s.disk
    ensures var ScanRest(g, alive, status) := s.lock.owner.scan; MayDelete(s, g, alive, status)
  {
    hide MayDelete, WorkerNext, WorkerDisk, DispatchDisk, DispatchCodes, PollNext;
  }

  lemma ScanIsCurrent(s: Lane, g: Option<nat>, alive: bool, status: Option<nat>)
    requires Inv(s) && History(s) && s.lock == Exclusive(Pruner(ScanRest(g, alive, status))) && MayDelete(s, g, alive, status)
    ensures Terminal(VerdictOf(s))
  {
    hide Itoa;
  }
}
