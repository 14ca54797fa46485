/** Exactly which kills each promise of the lane protocol survives. */
module LaneFaults {
  import opened Options
  import opened LaneVerdict
  import opened LaneProtocol
  import opened LaneInvariant
  import opened LaneTheorems
  import opened LaneStability

  /** Workers write only into their own generation, unless a lane may be let go that does not name its worker. */
  lemma OwnGenerationExactly(f: Faults)
    ensures (forall r :: Run(f, r) ==> WritesHome(r)) <==> Reported(f)
    ensures (forall r :: Run(f, r) ==> ResetsQuiet(r)) <==> Reported(f)
  {
    if Reported(f) {
      forall r | Run(f, r) ensures WritesHome(r) && ResetsQuiet(r) { OwnGeneration(f, r); }
    } else {
      var r := StolenLane(f);
      assert Run(f, r);
    }
  }

  /** A generation's status never changes, unless one of the three kills may happen. */
  lemma StatusStableExactly(f: Faults)
    ensures (forall r :: Run(f, r) ==> StatusStable(r)) <==> f == NO_FAULTS
  {
    if !Reported(f) {
      var r := StolenLane(f);
      assert Run(f, r);
    } else if f.tornRemoval {
      var r := TornReset(f);
      assert Run(f, r);
    } else {
      forall r | Run(f, r) ensures StatusStable(r) { StatusNeverChanges(r); }
    }
  }

  /** A settled verdict never changes under a shared lock, unless one of the three kills may happen. */
  lemma VerdictStableExactly(f: Faults)
    ensures (forall r :: Run(f, r) ==> VerdictStable(r)) <==> f == NO_FAULTS
  {
    if f.gapKill {
      var r := LateWorker(f);
      assert Run(f, r);
    } else if f.lostReport {
      var r := FailedTooEarly(f);
      assert Run(f, r);
    } else if f.tornRemoval {
      var r := TornPrune(f);
      assert Run(f, r);
    } else {
      forall r | Run(f, r) ensures VerdictStable(r) { VerdictNeverChanges(r); }
    }
  }

  // ----- runs that break a promise

  const START := Lane(0, Disk(None, None, None, None, None, map[], map[], map[]), FREE, Procs(map[], map[], map[], 0), 0, map[])

  lemma Started(f: Faults)
    ensures Run(f, [START])
  {
  }

  function Last(r: seq<Lane>): Lane
    requires r != []
  {
    r[|r| - 1]
  }

  lemma Grow(f: Faults, r: seq<Lane>, step: Step) returns (r': seq<Lane>)
    requires Run(f, r) && Enabled(f, Last(r), step)
    ensures Run(f, r') && r' == r + [Do(f, Last(r), step)] && Last(r') == Do(f, Last(r), step)
  {
    r' := r + [Do(f, Last(r), step)];
    forall i | 0 < i < |r'|
      ensures Next(f, r'[i - 1], r'[i])
    {
      if i < |r| { assert Next(f, r[i - 1], r[i]); }
    }
  }

  /** The busy check lets a dispatcher through. */
  predicate LetsThrough(s: Lane) {
    s.lock == FREE && (s.disk.meta.None? || s.disk.status.Some? || (!PidAlive(s.disk, s.procs) && !Recent(s.disk, s.now)))
  }

  function Prepared(s: Lane): Lane {
    s.(disk := Disk(Some(Meta(s.nextGen, s.now)), Some(s.nextGen), None, None, None, s.disk.replies[s.nextGen := ""],
                    if s.disk.meta.Some? then s.disk.temps - {s.disk.meta.value.gen} else s.disk.temps, s.disk.logs),
       lock := Exclusive(Dispatcher(false, Published(s.nextGen))), nextGen := s.nextGen + 1)
  }

  /** An asynchronous dispatch up to the publication of its meta. */
  lemma Prepare(f: Faults, r: seq<Lane>) returns (r': seq<Lane>)
    requires Run(f, r) && LetsThrough(Last(r))
    ensures Run(f, r') && |r| <= |r'| && r == r'[..|r|] && Last(r') == Prepared(Last(r))
  {
    hide Run, WorkerDo, WorkerCan, CodexDo, CodexCan, PruneDo, PruneCan, ReaderDo, ReaderCan;
    r' := Grow(f, r, LockDispatch(false));
    r' := Grow(f, r', ByDispatcher(Check));
    if Last(r').lock.owner.pc.Confirming? {
      r' := Grow(f, r', ByDispatcher(Confirm));
    }
    r' := Reset(f, r');
    r' := Grow(f, r', ByDispatcher(WriteCmd(true)));
    r' := Grow(f, r', ByDispatcher(Publish));
  }

  lemma Reset(f: Faults, r: seq<Lane>) returns (r': seq<Lane>)
    requires Run(f, r) && Last(r).lock == Exclusive(Dispatcher(false, Staging))
    ensures Run(f, r') && |r| <= |r'| && r == r'[..|r|]
    ensures var s := Last(r); Last(r') == s.(
      disk := Disk(None, None, None, None, None, s.disk.replies[s.nextGen := ""],
                   if s.disk.meta.Some? then s.disk.temps - {s.disk.meta.value.gen} else s.disk.temps, s.disk.logs),
      lock := Exclusive(Dispatcher(false, Writing(s.nextGen))), nextGen := s.nextGen + 1)
  {
    hide Run, WorkerDo, WorkerCan, CodexDo, CodexCan, PruneDo, PruneCan, ReaderDo, ReaderCan;
    r' := Grow(f, r, ByDispatcher(Stage));
    r' := Grow(f, r', ByDispatcher(Remove));
    r' := Grow(f, r', ByDispatcher(Remove));
    r' := Grow(f, r', ByDispatcher(Remove));
    r' := Grow(f, r', ByDispatcher(Remove));
    r' := Grow(f, r', ByDispatcher(Remove));
    r' := Grow(f, r', ByDispatcher(Remove));
  }

  /** A worker that finds no codex, up to its status write. */
  lemma FailWorker(f: Faults, r: seq<Lane>, g: nat) returns (r': seq<Lane>)
    requires Run(f, r) && g in Last(r).procs.workers && Last(r).procs.workers[g].pc.Fresh? && Last(r).disk.cmd.Some?
    ensures Run(f, r') && |r| <= |r'| && r == r'[..|r|]
    ensures var s := Last(r); var c := s.disk.cmd.value; Last(r') == s.(
      disk := s.disk.(temps := s.disk.temps - {c}, logs := s.disk.logs[c := Log(false, false)]),
      procs := s.procs.(workers := s.procs.workers[g := s.procs.workers[g].(pc := Ending(127))]))
    ensures forall i :: |r| <= i < |r'| ==> r'[i].lock == Last(r).lock
  {
    hide Run, DispatchDo, DispatchCan, CodexDo, CodexCan, PruneDo, PruneCan, ReaderDo, ReaderCan;
    r' := Grow(f, r, ByWorker(g, Load));
    r' := Grow(f, r', ByWorker(g, NoCodex(127)));
    r' := Grow(f, r', ByWorker(g, Rename));
    r' := Grow(f, r', ByWorker(g, Sweep));
  }

  /** A lane let go at time 0 with a live worker that it does not name. */
  predicate Stray(s: Lane) {
    && s.lock == FREE && s.now == 0 && s.nextGen == 1
    && s.procs == Procs(map[0 := Worker(1, 0, Fresh)], map[], map[1 := 0], 1)
    && s.disk == Disk(Some(Meta(0, 0)), Some(0), s.disk.status, None, None, map[0 := ""], map[], map[])
  }

  /** A dispatcher killed between its worker's spawn and the pid write. */
  lemma Orphan(f: Faults) returns (r: seq<Lane>)
    requires f.gapKill
    ensures Run(f, r) && Stray(Last(r)) && Last(r).disk.status.None?
  {
    Started(f);
    r := Prepare(f, [START]);
    r := Grow(f, r, ByDispatcher(Spawn(1)));
    r := Grow(f, r, OwnerKill);
  }

  /** A middle child killed between its spawn of the worker and its report: the lane records a failed spawn. */
  lemma Unreported(f: Faults) returns (r: seq<Lane>)
    requires f.lostReport
    ensures Run(f, r) && Stray(Last(r)) && Last(r).disk.status == Some(SPAWN_FAILED)
  {
    Started(f);
    r := Prepare(f, [START]);
    r := Grow(f, r, SpawnUnreported(1));
  }

  /** The stray worker survives the busy window: the next dispatch resets the lane beside it. */
  lemma Usurped(f: Faults) returns (r: seq<Lane>)
    requires !Reported(f)
    ensures Run(f, r) && !ResetsQuiet(r) && GenOf(Last(r).disk) == Some(1) && Last(r).disk.cmd == Some(1)
    ensures Last(r).lock == Exclusive(Dispatcher(false, Published(1)))
    ensures Last(r).procs.workers == map[0 := Worker(1, 0, Fresh)]
  {
    if f.gapKill { r := Orphan(f); } else { r := Unreported(f); }
    r := Grow(f, r, Advance(BUSY_WINDOW));
    r := Prepare(f, r);
    assert Clearing(Last(r).lock) && 0 in Last(r).procs.workers && Unfinished(Last(r).procs.workers[0]);
  }

  lemma ResetStaysUnquiet(r: seq<Lane>, r': seq<Lane>)
    requires !ResetsQuiet(r) && |r| <= |r'| && r == r'[..|r|]
    ensures !ResetsQuiet(r')
  {
    var i :| 0 <= i < |r| && Clearing(r[i].lock) && !Quiet(r[i].procs);
    assert r'[i] == r[i];
  }

  /** The stray worker records its status into the next dispatch's generation. */
  lemma Stolen(f: Faults) returns (r: seq<Lane>)
    requires !Reported(f)
    ensures Run(f, r) && !ResetsQuiet(r) && |r| > 1
    ensures var s := r[|r| - 2]; GenOf(s.disk) == Some(1) && s.procs.workers == map[0 := Worker(1, 0, Ending(127))]
    ensures var s := Last(r); GenOf(s.disk) == Some(1) && s.disk.status == Some(127) && s.procs.workers == map[0 := Worker(1, 0, Finished(true))]
    ensures Last(r).lock == Exclusive(Dispatcher(false, Published(1)))
  {
    var r0 := Usurped(f);
    var r1 := FailWorker(f, r0, 0);
    hide Run, ResetsQuiet, DispatchDo, DispatchCan, CodexDo, CodexCan, PruneDo, PruneCan, ReaderDo, ReaderCan;
    r := Grow(f, r1, ByWorker(0, RecordExit));
    ResetStaysUnquiet(r0, r);
    assert r[|r| - 2] == Last(r1);
  }

  /** The generation it was stolen from then records its own status, a second one. */
  lemma StolenLane(f: Faults) returns (r: seq<Lane>)
    requires !Reported(f)
    ensures Run(f, r) && !WritesHome(r) && !ResetsQuiet(r) && !StatusStable(r)
  {
    var r0 := Stolen(f);
    hide Run, ResetsQuiet, WorkerDo, WorkerCan, CodexDo, CodexCan, PruneDo, PruneCan, ReaderDo, ReaderCan;
    r := Grow(f, r0, ByDispatcher(ImageFails));
    ResetStaysUnquiet(r0, r);
    var n := |r0| - 1;
    assert r[n - 1] == r0[n - 1] && r[n] == Last(r0) && r[n + 1] == Last(r);
    assert RecordsAt(r, n, 0) && !IsGen(r[n - 1].disk, 0);
    assert BothRecorded(r[n].disk, r[n + 1].disk);
  }

  /** A watcher calls an orphan's lane dead, and then it fails instead. */
  lemma LateWorker(f: Faults) returns (r: seq<Lane>)
    requires f.gapKill
    ensures Run(f, r) && !VerdictStable(r)
  {
    r := Orphan(f);
    r := Grow(f, r, Advance(REGISTER_GRACE + 1));
    r := Grow(f, r, ByReader(0, Lock(true)));
    ghost var m := |r| - 1;
    r := FailWorker(f, r, 0);
    r := Grow(f, r, ByWorker(0, RecordExit));
    ghost var n := |r| - 1;
    assert HeldBy(r, 0, m, n);
    Verdicts(r, m, n);
  }

  /** A watcher calls the lane failed, and then its worker completes it. */
  lemma FailedTooEarly(f: Faults) returns (r: seq<Lane>)
    requires f.lostReport
    ensures Run(f, r) && !VerdictStable(r)
  {
    r := Unreported(f);
    r := Grow(f, r, ByReader(0, Lock(true)));
    ghost var m := |r| - 1;
    r := CompleteWorker(f, r);
    ghost var n := |r| - 1;
    assert HeldBy(r, 0, m, n);
    ItoaIsCanonical(SPAWN_FAILED);
    hide Itoa;
    Verdicts(r, m, n);
  }

  /** The stray worker's codex stages a reply and exits 0. */
  lemma ReplyCodex(f: Faults, r: seq<Lane>) returns (r': seq<Lane>)
    requires Run(f, r) && Stray(Last(r).(lock := FREE))
    ensures Run(f, r') && |r| <= |r'| && r == r'[..|r|]
    ensures forall i :: |r| <= i < |r'| ==> r'[i].lock == Last(r).lock
    ensures var s := Last(r); Last(r') == s.(
      disk := s.disk.(temps := map[0 := "x"], logs := map[0 := Log(false, false)]),
      procs := Procs(map[0 := Worker(1, 0, Waiting(0))], map[0 := Exited(0, "x")], s.procs.os, s.procs.nextStart))
  {
    hide Run, DispatchDo, DispatchCan, PruneDo, PruneCan, ReaderDo, ReaderCan;
    r' := Grow(f, r, ByWorker(0, Load));
    r' := Grow(f, r', ByWorker(0, Start));
    r' := Grow(f, r', ByCodex(0, Write("x")));
    r' := Grow(f, r', ByCodex(0, Quit(0)));
  }

  /** The stray worker publishes that reply and records 0. */
  lemma CompleteWorker(f: Faults, r: seq<Lane>) returns (r': seq<Lane>)
    requires Run(f, r) && Stray(Last(r).(lock := FREE))
    ensures Run(f, r') && |r| <= |r'| && r == r'[..|r|]
    ensures forall i :: |r| <= i < |r'| ==> r'[i].lock == Last(r).lock
    ensures Last(r').disk == Disk(Some(Meta(0, 0)), Some(0), Some(0), None, None, map[0 := "x"], map[], map[0 := Log(false, false)])
  {
    hide Run, DispatchDo, DispatchCan, CodexDo, CodexCan, PruneDo, PruneCan, ReaderDo, ReaderCan;
    r' := ReplyCodex(f, r);
    r' := Grow(f, r', ByWorker(0, Reap));
    r' := Grow(f, r', ByWorker(0, Rename));
    r' := Grow(f, r', ByWorker(0, Sweep));
    r' := Grow(f, r', ByWorker(0, RecordExit));
  }

  lemma Verdicts(r: seq<Lane>, m: nat, n: nat)
    requires m <= n < |r| && HeldBy(r, 0, m, n)
    requires VerdictOf(r[m]) != VerdictOf(r[n]) && Settled(VerdictOf(r[m]))
    ensures !VerdictStable(r)
  {
    assert VerdictAt(r, m, m, m) == VerdictOf(r[m]) && VerdictAt(r, n, n, n) == VerdictOf(r[n]);
  }

  /** A dispatcher killed after it removed the status and before it removed meta. */
  lemma TearReset(f: Faults, r: seq<Lane>) returns (r': seq<Lane>)
    requires f.tornRemoval && Run(f, r) && Last(r).lock == FREE && Last(r).disk.meta.Some? && Last(r).disk.status.Some?
    ensures Run(f, r') && |r| <= |r'| && r == r'[..|r|] && Last(r').lock == FREE && Last(r').now == Last(r).now
    ensures var d := Last(r).disk;
      Last(r').disk == d.(status := None, replies := d.replies[Last(r).nextGen := ""], temps := d.temps - {d.meta.value.gen})
  {
    hide Run, WorkerDo, WorkerCan, CodexDo, CodexCan, PruneDo, PruneCan, ReaderDo, ReaderCan;
    r' := Grow(f, r, LockDispatch(false));
    r' := Grow(f, r', ByDispatcher(Check));
    r' := Grow(f, r', ByDispatcher(Stage));
    r' := Grow(f, r', ByDispatcher(Remove));
    r' := Grow(f, r', OwnerKill);
  }

  lemma TornLane(f: Faults) returns (r: seq<Lane>, m: nat)
    requires f.tornRemoval
    ensures Run(f, r) && m < |r| && GenOf(r[m].disk) == Some(0) && r[m].disk.status == Some(126)
    ensures Last(r).disk == Disk(Some(Meta(0, 0)), Some(0), None, None, None, map[0 := "", 1 := ""], map[], map[])
    ensures Last(r).lock == FREE && Last(r).now == 0
  {
    hide Run;
    var r0 := ImageLane(f);
    m := |r0| - 1;
    r := TearReset(f, r0);
    assert r[m] == Last(r0);
  }

  /** A dispatch that fails before its spawn. */
  lemma ImageLane(f: Faults) returns (r: seq<Lane>)
    ensures Run(f, r) && r != []
    ensures Last(r) == Lane(0, Disk(Some(Meta(0, 0)), Some(0), Some(126), None, None, map[0 := ""], map[], map[]), FREE, START.procs, 1, map[0 := 126])
  {
    hide Run, WorkerDo, WorkerCan, CodexDo, CodexCan, PruneDo, PruneCan, ReaderDo, ReaderCan;
    Started(f);
    r := Prepare(f, [START]);
    r := Grow(f, r, ByDispatcher(ImageFails));
  }

  /** An awaiter gives up on a lane that has neither status nor pid. */
  lemma AwaitLost(f: Faults, r: seq<Lane>) returns (r': seq<Lane>)
    requires Run(f, r) && Last(r).lock == FREE && Last(r).disk.meta.Some? && Last(r).disk.status.None? && Last(r).disk.pid.None?
    requires Last(r).now == Last(r).disk.meta.value.published
    ensures Run(f, r') && |r| <= |r'| && r == r'[..|r|] && Last(r').disk == Last(r).disk.(status := Some(WORKER_LOST))
  {
    hide DispatchDo, DispatchCan, CodexDo, CodexCan, PruneDo, PruneCan, WorkerDo, WorkerCan;
    r' := Grow(f, r, Advance(Last(r).now + REGISTER_GRACE + 1));
    r' := Grow(f, r', ByReader(0, Lock(false)));
    r' := Grow(f, r', ByReader(0, ReadMeta));
    r' := Grow(f, r', ByReader(0, PollMore));
    r' := Grow(f, r', ByReader(0, PollMore));
    r' := Grow(f, r', ByReader(0, PollMore));
    r' := Grow(f, r', ByReader(0, PollMore));
  }

  /** The torn lane had recorded 126; the awaiter records 75 in the same generation. */
  lemma TornReset(f: Faults) returns (r: seq<Lane>)
    requires f.tornRemoval
    ensures Run(f, r) && !StatusStable(r)
  {
    var r0, m := TornLane(f);
    r := AwaitLost(f, r0);
    assert r[m] == r0[m] && BothRecorded(r[m].disk, Last(r).disk);
  }

  /** A whole run of one asynchronous dispatch whose worker finds no codex. */
  lemma FailedLane(f: Faults) returns (r: seq<Lane>)
    ensures Run(f, r) && Last(r).lock == FREE && Last(r).procs.workers == map[0 := Worker(1, 0, Finished(false))]
    ensures 1 !in Last(r).procs.os && Last(r).procs.nextStart == 1
    ensures Last(r).disk == Disk(Some(Meta(0, 0)), Some(0), Some(127), Some(1), Some(0), map[0 := ""], map[], map[0 := Log(false, false)])
  {
    hide Run, CodexDo, CodexCan, PruneDo, PruneCan, ReaderDo, ReaderCan;
    Started(f);
    r := Prepare(f, [START]);
    r := Grow(f, r, ByDispatcher(Spawn(1)));
    r := Grow(f, r, ByDispatcher(RecordStart));
    r := Grow(f, r, ByDispatcher(RecordPid));
    r := FailWorker(f, r, 0);
    r := Grow(f, r, ByWorker(0, RecordExit));
    r := Grow(f, r, ByWorker(0, Exit));
  }

  lemma FailedMayGo(s: Lane, g: Option<nat>, alive: bool, code: nat)
    requires code != 0 && code != WORKER_LOST
    ensures MayDelete(s, g, alive, Some(code))
  {
    ItoaIsCanonical(code);
    hide Itoa;
  }

  /** A pruner killed after it removed the status and the start time. */
  lemma HalfPruned(f: Faults) returns (r: seq<Lane>)
    requires f.tornRemoval
    ensures Run(f, r) && Last(r).lock == FREE && 1 !in Last(r).procs.os
    ensures Last(r).disk == Disk(Some(Meta(0, 0)), Some(0), None, Some(1), None, map[0 := ""], map[], map[0 := Log(false, false)])
  {
    hide Run, DispatchDo, DispatchCan, CodexDo, CodexCan, WorkerDo, WorkerCan, ReaderDo, ReaderCan, MayDelete;
    r := FailedLane(f);
    r := Grow(f, r, LockPrune);
    r := Grow(f, r, ByPruner(ScanMore));
    r := Grow(f, r, ByPruner(ScanMore));
    FailedMayGo(Last(r), Some(0), false, 127);
    r := Grow(f, r, ByPruner(ScanMore));
    r := Grow(f, r, ByPruner(Delete(StatusFile)));
    r := Grow(f, r, ByPruner(Delete(StartedFile)));
    r := Grow(f, r, OwnerKill);
  }

  /** A recycled pid brings the half-pruned lane back to life under a watcher's lock. */
  lemma TornPrune(f: Faults) returns (r: seq<Lane>)
    requires f.tornRemoval
    ensures Run(f, r) && !VerdictStable(r)
  {
    var r0 := HalfPruned(f);
    var r1 := Grow(f, r0, ByReader(0, Lock(true)));
    r := Grow(f, r1, OsStart(1));
    var m := |r1| - 1;
    assert r[m] == Last(r1) && r[m + 1] == Last(r);
    hide Run, Enabled, Itoa;
    assert HeldBy(r, 0, m, m + 1);
    Verdicts(r, m, m + 1);
  }
}
