/** What every step of the lane protocol keeps, as long as no kill separates a spawn from its pid write. */
module LaneInvariant {
  import opened Options
  import opened LaneVerdict
  import opened LaneProtocol

  /** A live process is the one its start time names, and no two workers share a start time. */
  ghost predicate OsOk(procs: Procs) {
    && (forall p :: p in procs.os ==> procs.os[p] < procs.nextStart)
    && (forall g :: g in procs.workers ==> procs.workers[g].start < procs.nextStart)
    && (forall g :: g in procs.workers && Up(procs.workers[g]) ==> IsProcess(procs, procs.workers[g]))
    && (forall g :: g in procs.workers && !Up(procs.workers[g]) ==> !IsProcess(procs, procs.workers[g]))
    && (forall g, h :: g in procs.workers && h in procs.workers && procs.workers[g].start == procs.workers[h].start ==> g == h)
  }

  predicate IsProcess(procs: Procs, w: Worker) {
    w.pid in procs.os && procs.os[w.pid] == w.start
  }

  /** No file and no process belongs to a generation that has not been minted. */
  ghost predicate GensOk(s: Lane) {
    && (forall g :: g in s.procs.workers ==> g < s.nextGen)
    && (forall g :: g in s.procs.codex ==> g in s.procs.workers)
    && (forall g :: g in s.disk.replies ==> g < s.nextGen)
    && (forall g :: g in s.codes ==> g < s.nextGen)
    && (s.disk.meta.Some? ==> s.disk.meta.value.gen < s.nextGen)
  }

  /** No worker is alive without a recorded status. */
  ghost predicate Quiet(procs: Procs) {
    forall g :: g in procs.workers ==> !Unfinished(procs.workers[g])
  }

  /** A lock holder that may reset or delete the lane. */
  predicate Clearing(lock: Lock) {
    || (Dispatching(lock) && var pc := lock.owner.pc;
         pc.Staging? || pc.Resetting? || pc.Writing? || pc.Publishing? || pc.Published?)
    || (Pruning(lock) && lock.owner.scan.Deleting?)
  }

  predicate OwnCmd(pc: WorkerPc, g: nat) {
    match pc
    case Loaded(c) => c == g
    case Waiting(c) => c == g
    case Reaped(c, _) => c == g
    case Renamed(c, _) => c == g
    case _ => true
  }

  /** A worker without a recorded status: the lane is still its own, and its pid is recorded or about to be. */
  predicate AtHome(d: Disk, lock: Lock, w: Worker, g: nat) {
    && IsGen(d, g) && d.status.None? && !Clearing(lock)
    && (d.cmd.None? || d.cmd.value == g)
    && OwnCmd(w.pc, g)
    && (InHandoff(lock) || (d.pid == Some(w.pid) && d.started == Some(w.start)))
  }

  ghost predicate HomeOk(s: Lane) {
    forall g :: g in s.procs.workers && Unfinished(s.procs.workers[g]) ==> AtHome(s.disk, s.lock, s.procs.workers[g], g)
  }

  predicate ExitedZero(codex: map<nat, Codex>, g: nat) {
    g in codex && codex[g].Exited? && codex[g].rc == 0
  }

  /** A worker's exit code 0 comes from its codex run. */
  predicate RunFits(codex: map<nat, Codex>, pc: WorkerPc, g: nat) {
    match pc
    case Fresh => g !in codex
    case Loaded(_) => g !in codex
    case Waiting(_) => g in codex
    case Reaped(_, rc) => rc == 0 ==> ExitedZero(codex, g)
    case Renamed(_, rc) => rc == 0 ==> ExitedZero(codex, g)
    case Ending(rc) => rc == 0 ==> ExitedZero(codex, g)
    case _ => true
  }

  ghost predicate WorkersOk(procs: Procs) {
    forall g :: g in procs.workers ==> RunFits(procs.codex, procs.workers[g].pc, g)
  }

  /** A recorded 0 and a reply both come from a codex run that exited 0 and staged that reply. */
  ghost predicate RunsOk(d: Disk, procs: Procs) {
    && (forall c :: c in procs.codex && procs.codex[c].Exited? && c in d.temps ==> d.temps[c] == procs.codex[c].staged)
    && (forall g :: g in d.replies && d.replies[g] != "" ==> g in procs.codex && procs.codex[g] == Exited(0, d.replies[g]))
    && (d.status == Some(0) && d.meta.Some? ==> ExitedZero(procs.codex, d.meta.value.gen))
  }

  /** A generation just minted: nothing refers to it. */
  predicate Unused(s: Lane, g: nat) {
    g < s.nextGen && g !in s.procs.workers && g !in s.codes
  }

  ghost predicate DispatchOk(s: Lane, pc: DispatchPc) {
    var d := s.disk;
    match pc
    case Resetting(g, k) =>
      && Unused(s, g) && !IsGen(d, g) && k <= 5
      && (k >= 1 ==> d.status.None?) && (k >= 2 ==> d.pid.None?) && (k >= 3 ==> d.started.None?)
      && (k >= 4 ==> d.meta.None?) && (k >= 5 ==> d.cmd.None?)
    case Writing(g) => Unused(s, g) && Empty(d)
    case Publishing(g) => Unused(s, g) && Blank(d, g) && d.meta.None?
    case Published(g) => Unused(s, g) && Blank(d, g) && IsGen(d, g)
    case Spawned(g) => IsGen(d, g) && g in s.procs.workers && d.pid.None? && d.started.None?
    case Registered(g) => IsGen(d, g) && g in s.procs.workers && d.pid.None? && d.started == Some(s.procs.workers[g].start)
    case Polling(poll) => PollOk(d, s.procs, poll)
    case _ => true
  }

  predicate Blank(d: Disk, g: nat) {
    d.status.None? && d.pid.None? && d.started.None? && (d.cmd.None? || d.cmd.value == g)
  }

  ghost predicate PruneOk(d: Disk, procs: Procs, scan: PrunePc) {
    match scan
    case Scan => true
    case ScanStatus(g, alive) => g == GenOf(d) && (!alive ==> Quiet(procs))
    case ScanRest(g, alive, status) => g == GenOf(d) && (!alive || status.Some? ==> Quiet(procs) && d.status == status)
    case Deleting => true
  }

  /** The lane is past its worker, and its status is absent or what pollStatus would record. */
  ghost predicate Settling(d: Disk, procs: Procs) {
    Quiet(procs) && (d.status.None? || d.status == Some(Recovered(d)))
  }

  ghost predicate PollOk(d: Disk, procs: Procs, p: Poll) {
    && IsGen(d, p.gen)
    && match p.pc
       case Verify => p.grace >= 1 ==> Quiet(procs)
       case Look => p.grace >= 1 ==> Quiet(procs)
       case Probe => p.grace >= 1 || d.pid.None? ==> Settling(d, procs)
       case Record(code) => Settling(d, procs) && code == Recovered(d)
       case Report => d.status.Some?
       case Reused => false
  }

  ghost predicate ReaderOk(d: Disk, procs: Procs, r: Reader) {
    match r
    case Opening(_) => true
    case Awaiting(p) => PollOk(d, procs, p)
    case Watching(seen) => seen == GenOf(d)
  }

  ghost predicate LockOk(s: Lane) {
    match s.lock
    case Shared(holders) => forall a :: a in holders ==> ReaderOk(s.disk, s.procs, holders[a])
    case Exclusive(Dispatcher(_, pc)) => DispatchOk(s, pc)
    case Exclusive(Pruner(scan)) => PruneOk(s.disk, s.procs, scan)
  }

  ghost predicate Inv(s: Lane) {
    OsOk(s.procs) && GensOk(s) && HomeOk(s) && WorkersOk(s.procs) && RunsOk(s.disk, s.procs) && LockOk(s)
  }

  lemma InitInv(s: Lane)
    requires Init(s)
    ensures Inv(s)
  {
  }

  /** A pid that reads dead means that no worker is alive without a status. */
  lemma DeadMeansQuiet(s: Lane)
    requires OsOk(s.procs) && HomeOk(s) && !InHandoff(s.lock) && !PidAlive(s.disk, s.procs)
    ensures Quiet(s.procs)
  {
  }

  /** Steps that leave alone what poll loops rely on. */
  predicate SameForPolls(d: Disk, e: Disk) {
    e.meta == d.meta && e.status == d.status && e.pid == d.pid && e.replies == d.replies
  }

  lemma LockFrame(s: Lane, t: Lane)
    requires LockOk(s) && t.lock == s.lock && t.nextGen == s.nextGen && t.codes == s.codes
    requires SameForPolls(s.disk, t.disk) && t.disk.started == s.disk.started && t.disk.cmd == s.disk.cmd
    requires t.procs.workers.Keys == s.procs.workers.Keys
    requires forall g :: g in s.procs.workers ==> t.procs.workers[g].start == s.procs.workers[g].start
    requires forall g :: g in s.procs.workers ==> (Unfinished(t.procs.workers[g]) <==> Unfinished(s.procs.workers[g]))
    ensures LockOk(t)
  {
    assert Quiet(t.procs) <==> Quiet(s.procs);
  }

  /** While a worker has no status, a poller has not seen it dead. */
  lemma PollWaits(d: Disk, procs: Procs, p: Poll)
    requires PollOk(d, procs, p) && !Quiet(procs) && d.status.None?
    ensures IsGen(d, p.gen) && p.grace == 0 && (p.pc.Verify? || p.pc.Look? || (p.pc.Probe? && d.pid.Some?))
  {
  }

  lemma WorkerOs(s: Lane, g: nat, work: WorkerAct)
    requires OsOk(s.procs) && WorkerCan(s, g, work)
    ensures OsOk(WorkerDo(s, g, work).procs)
  {
    var pc := WorkerNext(s, g, work);
    hide WorkerNext, WorkerDisk, Recorded, ResetSince;
    assert Up(s.procs.workers[g]);
    assert Up(s.procs.workers[g].(pc := pc)) <==> !(work.Exit? || work.Kill?) by { WorkerUp(s, g, work); }
  }

  lemma WorkerUp(s: Lane, g: nat, work: WorkerAct)
    requires WorkerCan(s, g, work)
    ensures Up(s.procs.workers[g].(pc := WorkerNext(s, g, work))) <==> !(work.Exit? || work.Kill?)
  {
  }

  lemma WorkerHome(s: Lane, g: nat, work: WorkerAct)
    requires HomeOk(s) && WorkerCan(s, g, work)
    requires OsOk(s.procs)
    ensures HomeOk(WorkerDo(s, g, work))
  {
    var t := WorkerDo(s, g, work);
    if Unfinished(s.procs.workers[g]) {
      assert forall h :: h in s.procs.workers && Unfinished(s.procs.workers[h]) ==> h == g;
    }
  }

  lemma WorkerWorkers(s: Lane, g: nat, work: WorkerAct)
    requires WorkersOk(s.procs) && HomeOk(s) && WorkerCan(s, g, work)
    ensures WorkersOk(WorkerDo(s, g, work).procs)
  {
    var w := s.procs.workers[g];
    assert Unfinished(w) ==> OwnCmd(w.pc, g) && (s.disk.cmd.None? || s.disk.cmd.value == g);
    hide WorkerDisk, Recorded, ResetSince, AtHome, HomeOk;
  }

  lemma WorkerRuns(s: Lane, g: nat, work: WorkerAct)
    requires WorkersOk(s.procs) && RunsOk(s.disk, s.procs) && HomeOk(s) && WorkerCan(s, g, work)
    ensures RunsOk(WorkerDo(s, g, work).disk, WorkerDo(s, g, work).procs)
  {
    hide Recorded, ResetSince;
    var w := s.procs.workers[g];
    assert Unfinished(w) ==> AtHome(s.disk, s.lock, w, g);
  }

  lemma WorkerGens(s: Lane, g: nat, work: WorkerAct)
    requires GensOk(s) && HomeOk(s) && WorkerCan(s, g, work)
    ensures GensOk(WorkerDo(s, g, work))
  {
    hide ResetSince;
    var w := s.procs.workers[g];
    assert Unfinished(w) ==> AtHome(s.disk, s.lock, w, g);
  }

  lemma WorkerLock(s: Lane, g: nat, work: WorkerAct)
    requires LockOk(s) && HomeOk(s) && WorkerCan(s, g, work)
    ensures LockOk(WorkerDo(s, g, work))
  {
    var t := WorkerDo(s, g, work);
    if work.Exit? {
      LockFrame(s, t);
    } else {
      assert AtHome(s.disk, s.lock, s.procs.workers[g], g) && !Quiet(s.procs);
      match s.lock {
        case Shared(holders) =>
          forall a | a in holders && holders[a].Awaiting?
            ensures PollOk(t.disk, t.procs, holders[a].poll)
          {
            assert ReaderOk(s.disk, s.procs, holders[a]);
            PollWaits(s.disk, s.procs, holders[a].poll);
          }
        case Exclusive(Dispatcher(_, Polling(p))) => PollWaits(s.disk, s.procs, p);
        case Exclusive(_) =>
      }
    }
  }

  lemma WorkerInv(s: Lane, g: nat, work: WorkerAct)
    requires Inv(s) && WorkerCan(s, g, work)
    ensures Inv(WorkerDo(s, g, work))
  {
    hide WorkerDo, OsOk, GensOk, HomeOk, WorkersOk, RunsOk, LockOk;
    WorkerOs(s, g, work);
    WorkerGens(s, g, work);
    WorkerHome(s, g, work);
    WorkerWorkers(s, g, work);
    WorkerRuns(s, g, work);
    WorkerLock(s, g, work);
  }

  lemma CodexRuns(s: Lane, c: nat, run: CodexAct)
    requires GensOk(s) && WorkersOk(s.procs) && RunsOk(s.disk, s.procs) && CodexCan(s, c, run)
    ensures WorkersOk(CodexDo(s, c, run).procs) && RunsOk(CodexDo(s, c, run).disk, CodexDo(s, c, run).procs)
  {
  }

  lemma CodexHome(s: Lane, c: nat, run: CodexAct)
    requires OsOk(s.procs) && GensOk(s) && HomeOk(s) && LockOk(s) && CodexCan(s, c, run)
    ensures OsOk(CodexDo(s, c, run).procs) && GensOk(CodexDo(s, c, run)) && HomeOk(CodexDo(s, c, run)) && LockOk(CodexDo(s, c, run))
  {
    LockFrame(s, CodexDo(s, c, run));
    hide LockOk;
  }

  lemma CodexInv(s: Lane, c: nat, run: CodexAct)
    requires Inv(s) && CodexCan(s, c, run)
    ensures Inv(CodexDo(s, c, run))
  {
    hide CodexDo, OsOk, GensOk, HomeOk, WorkersOk, RunsOk, LockOk;
    CodexRuns(s, c, run);
    CodexHome(s, c, run);
  }

  // ----- dispatchers

  lemma DispatchOs(s: Lane, dispatch: DispatchAct)
    requires OsOk(s.procs) && GensOk(s) && LockOk(s) && DispatchCan(s, dispatch)
    ensures OsOk(DispatchDo(s, dispatch).procs)
  {
    hide DispatchNext, DispatchDisk, DispatchCodes, PollOk;
  }

  lemma DispatchWorkers(s: Lane, dispatch: DispatchAct)
    requires GensOk(s) && WorkersOk(s.procs) && LockOk(s) && DispatchCan(s, dispatch)
    ensures WorkersOk(DispatchDo(s, dispatch).procs)
  {
    hide DispatchNext, DispatchDisk, DispatchCodes, PollOk;
  }

  lemma DispatchHome(s: Lane, dispatch: DispatchAct)
    requires OsOk(s.procs) && HomeOk(s) && LockOk(s) && DispatchCan(s, dispatch)
    ensures HomeOk(DispatchDo(s, dispatch))
  {
    hide DispatchCodes;
  }

  lemma DispatchGens(s: Lane, dispatch: DispatchAct)
    requires GensOk(s) && LockOk(s) && DispatchCan(s, dispatch)
    ensures GensOk(DispatchDo(s, dispatch))
  {
    hide DispatchNext;
  }

  lemma DispatchRuns(s: Lane, dispatch: DispatchAct)
    requires RunsOk(s.disk, s.procs) && LockOk(s) && DispatchCan(s, dispatch)
    ensures RunsOk(DispatchDo(s, dispatch).disk, DispatchDo(s, dispatch).procs)
  {
    hide DispatchNext, DispatchCodes, Quiet;
  }

  lemma DispatchLock(s: Lane, dispatch: DispatchAct)
    requires OsOk(s.procs) && GensOk(s) && HomeOk(s) && LockOk(s) && DispatchCan(s, dispatch)
    ensures LockOk(DispatchDo(s, dispatch))
  {
    hide OsOk, GensOk, HomeOk, LockOk, DispatchDo;
    if dispatch.PollOnce? {
      DispatchPoll(s);
    } else if dispatch.Remove? || dispatch.WriteCmd? || dispatch.Publish? {
      DispatchReset(s, dispatch);
    } else if dispatch.Check? || dispatch.Confirm? || dispatch.Stage? {
      DispatchEnter(s, dispatch);
    } else {
      DispatchSpawn(s, dispatch);
    }
  }

  lemma DispatchPoll(s: Lane)
    requires OsOk(s.procs) && HomeOk(s) && LockOk(s) && DispatchCan(s, PollOnce)
    ensures LockOk(DispatchDo(s, PollOnce))
  {
    PollKeeps(s, s.lock.owner.pc.poll);
    hide PollOk, PollNext, PollDisk, PollCodes, OsOk, HomeOk;
  }

  lemma DispatchReset(s: Lane, dispatch: DispatchAct)
    requires LockOk(s) && DispatchCan(s, dispatch) && (dispatch.Remove? || dispatch.WriteCmd? || dispatch.Publish?)
    ensures LockOk(DispatchDo(s, dispatch))
  {
    hide PollOk, PollNext, PollDisk, PollCodes, Quiet, Recorded;
  }

  lemma DispatchEnter(s: Lane, dispatch: DispatchAct)
    requires GensOk(s) && LockOk(s) && DispatchCan(s, dispatch)
    requires dispatch.Check? || dispatch.Confirm? || dispatch.Stage?
    ensures LockOk(DispatchDo(s, dispatch))
  {
    hide PollOk, PollNext, PollDisk, PollCodes, Recorded, Quiet;
  }

  lemma DispatchSpawn(s: Lane, dispatch: DispatchAct)
    requires GensOk(s) && HomeOk(s) && LockOk(s) && DispatchCan(s, dispatch)
    requires dispatch.ImageFails? || dispatch.Spawn? || dispatch.SpawnFails? || dispatch.RecordStart? || dispatch.RecordPid?
    ensures LockOk(DispatchDo(s, dispatch))
  {
    hide PollNext, PollDisk, PollCodes, Recorded;
  }

  lemma DispatchInv(s: Lane, dispatch: DispatchAct)
    requires Inv(s) && DispatchCan(s, dispatch)
    ensures Inv(DispatchDo(s, dispatch))
  {
    hide DispatchDo, OsOk, GensOk, HomeOk, WorkersOk, RunsOk, LockOk;
    DispatchOs(s, dispatch);
    DispatchGens(s, dispatch);
    DispatchWorkers(s, dispatch);
    DispatchHome(s, dispatch);
    DispatchRuns(s, dispatch);
    DispatchLock(s, dispatch);
  }

  // ----- pruners

  /** A lane that classifies terminal has no worker alive without a status, whichever moments the reads hit. */
  lemma TerminalMeansPast(s: Lane, g: Option<nat>, alive: bool, status: Option<nat>)
    requires MayDelete(s, g, alive, status)
    ensures g.None? || status.Some? || !alive || s.disk.pid.None?
  {
    hide Itoa;
  }

  lemma PruneQuiet(s: Lane, prune: PruneAct)
    requires OsOk(s.procs) && HomeOk(s) && LockOk(s) && PruneCan(s, prune)
    ensures LockOk(PruneDo(s, prune)) && (Clearing(PruneDo(s, prune).lock) ==> Quiet(s.procs))
  {
    hide MayDelete;
    if !PidAlive(s.disk, s.procs) { DeadMeansQuiet(s); }
    match s.lock.owner.scan {
      case ScanRest(g, alive, status) =>
        if MayDelete(s, g, alive, status) { TerminalMeansPast(s, g, alive, status); }
      case _ =>
    }
  }

  lemma RemovalKeeps(d: Disk, procs: Procs, file: File)
    requires RunsOk(d, procs)
    ensures RunsOk(Removed(d, file), procs)
    ensures Removed(d, file).replies.Keys <= d.replies.Keys && (Removed(d, file).meta == d.meta || Removed(d, file).meta.None?)
  {
  }

  lemma PruneInv(s: Lane, prune: PruneAct)
    requires Inv(s) && PruneCan(s, prune)
    ensures Inv(PruneDo(s, prune))
  {
    PruneQuiet(s, prune);
    if prune.Delete? { RemovalKeeps(s.disk, s.procs, prune.file); }
    hide PruneNext, Removed, OsOk, WorkersOk, RunsOk, LockOk;
  }

  // ----- readers

  lemma PollKeeps(s: Lane, p: Poll)
    requires OsOk(s.procs) && HomeOk(s) && PollOk(s.disk, s.procs, p) && !InHandoff(s.lock)
    ensures var next := PollNext(p, s.disk, PidAlive(s.disk, s.procs), s.now);
      next.Some? ==> PollOk(PollDisk(p, s.disk), s.procs, next.value)
  {
    if !PidAlive(s.disk, s.procs) { DeadMeansQuiet(s); }
  }

  /** What one poller records, every other poller would record. */
  lemma PollsAgree(d: Disk, procs: Procs, p: Poll, q: Poll)
    requires PollOk(d, procs, p) && PollOk(d, procs, q)
    ensures PollOk(PollDisk(p, d), procs, q)
  {
  }

  lemma ReaderLock(s: Lane, a: nat, read: ReaderAct)
    requires OsOk(s.procs) && HomeOk(s) && LockOk(s) && ReaderCan(s, a, read)
    ensures LockOk(ReaderDo(s, a, read))
  {
    var holders := s.lock.holders;
    if read.PollMore? {
      var p := holders[a].poll;
      assert ReaderOk(s.disk, s.procs, holders[a]);
      PollKeeps(s, p);
      forall b | b in holders && holders[b].Awaiting?
        ensures PollOk(PollDisk(p, s.disk), s.procs, holders[b].poll)
      {
        assert ReaderOk(s.disk, s.procs, holders[b]);
        PollsAgree(s.disk, s.procs, p, holders[b].poll);
      }
      assert GenOf(PollDisk(p, s.disk)) == GenOf(s.disk);
      hide PollOk, PollNext, PollDisk, PollCodes;
    }
  }

  lemma ReaderRest(s: Lane, a: nat, read: ReaderAct)
    requires GensOk(s) && HomeOk(s) && RunsOk(s.disk, s.procs) && LockOk(s) && ReaderCan(s, a, read)
    ensures GensOk(ReaderDo(s, a, read)) && HomeOk(ReaderDo(s, a, read)) && RunsOk(ReaderDo(s, a, read).disk, s.procs)
  {
    hide PollNext;
    if read.PollMore? {
      assert ReaderOk(s.disk, s.procs, s.lock.holders[a]);
    }
  }

  lemma ReaderInv(s: Lane, a: nat, read: ReaderAct)
    requires Inv(s) && ReaderCan(s, a, read)
    ensures Inv(ReaderDo(s, a, read))
  {
    assert ReaderDo(s, a, read).procs == s.procs;
    hide ReaderDo, OsOk, GensOk, HomeOk, WorkersOk, RunsOk, LockOk;
    ReaderLock(s, a, read);
    ReaderRest(s, a, read);
  }

  // ----- the rest

  lemma OsInv(f: Faults, s: Lane, step: Step)
    requires Inv(s) && Enabled(f, s, step) && (step.Advance? || step.OsStart? || step.OsExit?)
    ensures Inv(Do(f, s, step))
  {
    hide WorkerDo, CodexDo, DispatchDo, PruneDo, ReaderDo, WorkerCan, CodexCan, DispatchCan, PruneCan, ReaderCan;
    var t := Do(f, s, step);
    LockFrame(s, t);
    hide LockOk;
    assert HomeOk(t);
    assert WorkersOk(t.procs);
    assert RunsOk(t.disk, t.procs);
  }

  lemma LockInv(f: Faults, s: Lane, step: Step)
    requires Inv(s) && Reported(f) && Enabled(f, s, step) && (step.LockDispatch? || step.LockPrune? || step.OwnerKill?)
    ensures Inv(Do(f, s, step))
  {
    hide WorkerDo, CodexDo, DispatchDo, PruneDo, ReaderDo, WorkerCan, CodexCan, DispatchCan, PruneCan, ReaderCan;
    hide OsOk, WorkersOk, RunsOk;
  }

  lemma StepInv(f: Faults, s: Lane, step: Step)
    requires Inv(s) && Reported(f) && Enabled(f, s, step)
    ensures Inv(Do(f, s, step))
  {
    hide Inv, WorkerDo, CodexDo, DispatchDo, PruneDo, ReaderDo, WorkerCan, CodexCan, DispatchCan, PruneCan, ReaderCan;
    match step
    case ByWorker(g, work) => WorkerInv(s, g, work);
    case ByCodex(c, run) => CodexInv(s, c, run);
    case ByDispatcher(dispatch) => DispatchInv(s, dispatch);
    case ByPruner(prune) => PruneInv(s, prune);
    case ByReader(a, read) => ReaderInv(s, a, read);
    case _ =>
      if step.Advance? || step.OsStart? || step.OsExit? { OsInv(f, s, step); } else { LockInv(f, s, step); }
  }
}
