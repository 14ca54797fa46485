/** What every step keeps when, besides, no process is killed part-way through removing the lane's files. */
module LaneHistory {
  import opened Options
  import opened LaneVerdict
  import opened LaneProtocol
  import opened LaneInvariant

  /** A recorded pid and start time are those of the generation's own worker. */
  predicate NamedOk(d: Disk, lock: Lock, procs: Procs) {
    d.pid.Some? && d.meta.Some? && !MidRemoval(lock) ==>
      && d.meta.value.gen in procs.workers
      && d.pid.value == procs.workers[d.meta.value.gen].pid
      && d.started == Some(procs.workers[d.meta.value.gen].start)
  }

  /** The status file says what was last recorded for the generation, and workers record at most once. */
  ghost predicate CodesOk(s: Lane) {
    && (s.disk.meta.Some? && s.disk.status.Some? ==>
          s.disk.meta.value.gen in s.codes && s.codes[s.disk.meta.value.gen] == s.disk.status.value)
    && (s.disk.meta.Some? && s.disk.meta.value.gen in s.codes && !MidRemoval(s.lock) ==> s.disk.status.Some?)
    && (forall g :: g in s.procs.workers && s.procs.workers[g].pc.Finished? ==> g in s.codes)
    && (forall g :: g in s.procs.workers && Unfinished(s.procs.workers[g]) ==> g !in s.codes)
  }

  /** The generation's worker never started, or was killed before it recorded a status. */
  predicate Lost(procs: Procs, g: nat) {
    g !in procs.workers || procs.workers[g].pc.Killed?
  }

  predicate Between(p: Poll) {
    p.pc.Verify? || p.pc.Look? || p.pc.Probe?
  }

  predicate PollCounts(d: Disk, procs: Procs, p: Poll, now: int) {
    && (Between(p) ==> p.grace < GRACE_POLLS || d.status.Some?)
    && (p.gen in procs.workers && procs.workers[p.gen].pc.Killed? ==> p.since <= p.grace)
    && (p.pc.Record? || (p.pc.Probe? && (p.grace >= 1 || d.pid.None?)) ==> Lost(procs, p.gen))
    && (p.pc.Record? && d.pid.None? ==> Expired(d, now))
  }

  ghost predicate PollsOk(s: Lane) {
    match s.lock
    case Shared(holders) => forall a :: a in holders && holders[a].Awaiting? ==> PollCounts(s.disk, s.procs, holders[a].poll, s.now)
    case Exclusive(Dispatcher(_, Polling(p))) => PollCounts(s.disk, s.procs, p, s.now)
    case Exclusive(_) => true
  }

  ghost predicate History(s: Lane) {
    NamedOk(s.disk, s.lock, s.procs) && CodesOk(s) && PollsOk(s)
  }

  /** Whatever code a generation has recorded stays recorded. */
  ghost predicate Extends(codes: map<nat, nat>, more: map<nat, nat>) {
    forall g :: g in codes ==> g in more && more[g] == codes[g]
  }

  lemma InitHistory(s: Lane)
    requires Init(s)
    ensures History(s)
  {
  }

  /** Outside a removal, the recorded pid reads alive exactly while the generation's worker runs. */
  lemma AliveMeansUp(s: Lane)
    requires OsOk(s.procs) && NamedOk(s.disk, s.lock, s.procs) && s.disk.pid.Some? && s.disk.meta.Some? && !MidRemoval(s.lock)
    ensures PidAlive(s.disk, s.procs) <==> Up(s.procs.workers[s.disk.meta.value.gen])
  {
  }

  // ----- workers and codex

  lemma WorkerCodes(s: Lane, g: nat, work: WorkerAct)
    requires HomeOk(s) && CodesOk(s) && WorkerCan(s, g, work)
    ensures CodesOk(WorkerDo(s, g, work)) && Extends(s.codes, WorkerDo(s, g, work).codes)
  {
    var w := s.procs.workers[g];
    assert Unfinished(w) ==> IsGen(s.disk, g) && s.disk.status.None? && !Clearing(s.lock);
    assert MidRemoval(s.lock) ==> Clearing(s.lock);
    hide HomeOk, AtHome, Clearing, ResetSince;
    assert MidRemoval(WorkerDo(s, g, work).lock) <==> MidRemoval(s.lock) by { KillKeepsRemoval(s.lock); }
    hide MidRemoval;
  }

  lemma KillKeepsRemoval(lock: Lock)
    ensures MidRemoval(ResetSince(lock)) <==> MidRemoval(lock)
  {
  }

  lemma WorkerHistory(s: Lane, g: nat, work: WorkerAct)
    requires Inv(s) && History(s) && WorkerCan(s, g, work)
    ensures History(WorkerDo(s, g, work)) && Extends(s.codes, WorkerDo(s, g, work).codes)
  {
    var t := WorkerDo(s, g, work);
    WorkerPolls(s, g, work);
    WorkerCodes(s, g, work);
    KillKeepsRemoval(s.lock);
    hide LockOk, PollsOk, CodesOk, OsOk, GensOk, RunsOk, WorkersOk, HomeOk, MidRemoval, Extends, ResetSince, WorkerNext;
    assert NamedOk(t.disk, t.lock, t.procs);
  }

  lemma WorkerPolls(s: Lane, g: nat, work: WorkerAct)
    requires LockOk(s) && HomeOk(s) && PollsOk(s) && WorkerCan(s, g, work)
    ensures PollsOk(WorkerDo(s, g, work))
  {
    var t := WorkerDo(s, g, work);
    var w := s.procs.workers[g];
    if Unfinished(w) {
      assert AtHome(s.disk, s.lock, w, g) && !Quiet(s.procs);
      match s.lock {
        case Shared(holders) =>
          forall a | a in holders && holders[a].Awaiting?
            ensures t.lock.holders[a].Awaiting? && PollCounts(t.disk, t.procs, t.lock.holders[a].poll, s.now)
          {
            assert ReaderOk(s.disk, s.procs, holders[a]);
            PollWaits(s.disk, s.procs, holders[a].poll);
          }
        case Exclusive(Dispatcher(_, Polling(p))) => PollWaits(s.disk, s.procs, p);
        case Exclusive(_) =>
      }
    }
  }

  lemma CodexHistory(s: Lane, c: nat, run: CodexAct)
    requires History(s) && CodexCan(s, c, run)
    ensures History(CodexDo(s, c, run)) && Extends(s.codes, CodexDo(s, c, run).codes)
  {
  }

  // ----- pollers

  lemma PollHistory(s: Lane, p: Poll)
    requires Inv(s) && History(s) && PollOk(s.disk, s.procs, p) && PollCounts(s.disk, s.procs, p, s.now) && !MidRemoval(s.lock) && !InHandoff(s.lock)
    ensures var next := PollNext(p, s.disk, PidAlive(s.disk, s.procs), s.now);
      next.Some? ==> PollCounts(PollDisk(p, s.disk), s.procs, next.value, s.now)
    ensures Extends(s.codes, PollCodes(p, s.disk, s.codes))
  {
    if s.disk.pid.Some? { AliveMeansUp(s); }
    if !PidAlive(s.disk, s.procs) { DeadMeansQuiet(s); }
    hide LockOk, PollsOk, RunsOk, WorkersOk, HomeOk, OsOk;
  }

  /** A status that one poller records spoils no other poller's counts. */
  lemma PollCountsAgree(d: Disk, procs: Procs, p: Poll, q: Poll, now: int)
    requires PollCounts(d, procs, q, now)
    ensures PollCounts(PollDisk(p, d), procs, q, now)
  {
  }

  lemma ReaderHistory(s: Lane, a: nat, read: ReaderAct)
    requires Inv(s) && History(s) && ReaderCan(s, a, read)
    ensures History(ReaderDo(s, a, read)) && Extends(s.codes, ReaderDo(s, a, read).codes)
  {
    var holders := s.lock.holders;
    var t := ReaderDo(s, a, read);
    if read.PollMore? {
      var p := holders[a].poll;
      assert ReaderOk(s.disk, s.procs, holders[a]);
      PollHistory(s, p);
      forall b | b in holders && holders[b].Awaiting?
        ensures PollCounts(t.disk, s.procs, holders[b].poll, s.now)
      {
        PollCountsAgree(s.disk, s.procs, p, holders[b].poll, s.now);
      }
      PollCodesKept(s, p);
    }
    hide LockOk, OsOk, GensOk, RunsOk, WorkersOk, HomeOk, PollNext, PollCounts, Quiet;
  }

  lemma PollCodesKept(s: Lane, p: Poll)
    requires CodesOk(s) && PollOk(s.disk, s.procs, p)
    ensures CodesOk(s.(disk := PollDisk(p, s.disk), codes := PollCodes(p, s.disk, s.codes)))
  {
  }

  // ----- dispatchers and pruners

  lemma DispatchHistory(s: Lane, dispatch: DispatchAct)
    requires Inv(s) && History(s) && DispatchCan(s, dispatch)
    ensures History(DispatchDo(s, dispatch)) && Extends(s.codes, DispatchDo(s, dispatch).codes)
  {
    var t := DispatchDo(s, dispatch);
    if dispatch.PollOnce? {
      PollHistory(s, s.lock.owner.pc.poll);
      PollCodesKept(s, s.lock.owner.pc.poll);
    }
    assert CodesOk(t);
    assert NamedOk(t.disk, t.lock, t.procs);
    assert PollsOk(t);
  }

  lemma PruneHistory(s: Lane, prune: PruneAct)
    requires History(s) && PruneCan(s, prune)
    ensures History(PruneDo(s, prune)) && PruneDo(s, prune).codes == s.codes
  {
    hide MayDelete;
  }

  // ----- the rest

  lemma OtherHistory(f: Faults, s: Lane, step: Step)
    requires OsOk(s.procs) && History(s) && !f.tornRemoval && Enabled(f, s, step)
    requires step.Advance? || step.OsStart? || step.OsExit? || step.LockDispatch? || step.LockPrune? || step.OwnerKill?
    ensures History(Do(f, s, step)) && Do(f, s, step).codes == s.codes
  {
    hide WorkerDo, CodexDo, DispatchDo, PruneDo, ReaderDo, WorkerCan, CodexCan, DispatchCan, PruneCan, ReaderCan;
  }

  lemma StepHistory(f: Faults, s: Lane, step: Step)
    requires Inv(s) && History(s) && Reported(f) && !f.tornRemoval && Enabled(f, s, step)
    ensures History(Do(f, s, step)) && Extends(s.codes, Do(f, s, step).codes)
  {
    hide WorkerDo, CodexDo, DispatchDo, PruneDo, ReaderDo, WorkerCan, CodexCan, DispatchCan, PruneCan, ReaderCan;
    hide LockOk, PollsOk, CodesOk, OsOk, GensOk, RunsOk, WorkersOk, HomeOk, MidRemoval, History;
    match step
    case ByWorker(g, work) => WorkerHistory(s, g, work);
    case ByCodex(c, run) => CodexHistory(s, c, run);
    case ByDispatcher(dispatch) => DispatchHistory(s, dispatch);
    case ByPruner(prune) => PruneHistory(s, prune);
    case ByReader(a, read) => ReaderHistory(s, a, read);
    case _ => OtherHistory(f, s, step);
  }
}
