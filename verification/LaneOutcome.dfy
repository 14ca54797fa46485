/** What a worker that was not killed leaves behind: exactly the outcome of its codex run. */
module LaneOutcome {
  import opened Options
  import opened LaneVerdict
  import opened LaneProtocol
  import opened LaneInvariant
  import opened LaneHistory
  import opened LaneTheorems

  /** Worker `g` has `rc` from its codex run, or its codex never ran. */
  predicate EndedWith(codex: map<nat, Codex>, g: nat, rc: nat) {
    if g in codex then codex[g].Exited? && codex[g].rc == rc else rc != 0
  }

  /** What an exited codex run wrote is still in its temp file. */
  predicate Staged(d: Disk, codex: map<nat, Codex>, g: nat) {
    g in codex && codex[g].Exited? && codex[g].staged != "" ==> g in d.temps && d.temps[g] == codex[g].staged
  }

  /** What a successful codex run wrote is the reply. */
  predicate Replied(d: Disk, codex: map<nat, Codex>, g: nat) {
    g in codex && codex[g].Exited? && codex[g].rc == 0 && codex[g].staged != "" ==> g in d.replies && d.replies[g] == codex[g].staged
  }

  predicate OutcomeAt(s: Lane, pc: WorkerPc, g: nat) {
    match pc
    case Waiting(_) => Staged(s.disk, s.procs.codex, g)
    case Reaped(_, rc) => EndedWith(s.procs.codex, g, rc) && Staged(s.disk, s.procs.codex, g)
    case Renamed(_, rc) => EndedWith(s.procs.codex, g, rc) && Replied(s.disk, s.procs.codex, g)
    case Ending(rc) => EndedWith(s.procs.codex, g, rc) && Replied(s.disk, s.procs.codex, g)
    case Finished(_) =>
      && g in s.codes && EndedWith(s.procs.codex, g, s.codes[g])
      && (IsGen(s.disk, g) && !MidRemoval(s.lock) ==> Replied(s.disk, s.procs.codex, g))
    case _ => true
  }

  ghost predicate OutcomesOk(s: Lane) {
    forall g :: g in s.procs.workers ==> OutcomeAt(s, s.procs.workers[g].pc, g)
  }

  /** Steps that leave alone what a worker's outcome rests on. */
  lemma KeepsOutcome(s: Lane, t: Lane, pc: WorkerPc, g: nat)
    requires OutcomeAt(s, pc, g) && t.procs.codex == s.procs.codex && Extends(s.codes, t.codes)
    requires g in s.disk.replies ==> g in t.disk.replies && t.disk.replies[g] == s.disk.replies[g]
    requires pc.Waiting? || pc.Reaped? ==> t.disk.temps == s.disk.temps
    requires IsGen(t.disk, g) && !MidRemoval(t.lock) ==> IsGen(s.disk, g) && !MidRemoval(s.lock)
    ensures OutcomeAt(t, pc, g)
  {
  }

  lemma WorkerOutcome(s: Lane, g: nat, work: WorkerAct)
    requires HomeOk(s) && WorkersOk(s.procs) && RunsOk(s.disk, s.procs) && OutcomesOk(s) && WorkerCan(s, g, work)
    ensures OutcomesOk(WorkerDo(s, g, work))
  {
    var t := WorkerDo(s, g, work);
    WorkerOwn(s, g, work);
    forall h | h in s.procs.workers && h != g
      ensures OutcomeAt(t, s.procs.workers[h].pc, h)
    {
      assert OutcomeAt(s, s.procs.workers[h].pc, h);
      assert Unfinished(s.procs.workers[g]) ==> AtHome(s.disk, s.lock, s.procs.workers[g], g);
      assert Unfinished(s.procs.workers[h]) ==> AtHome(s.disk, s.lock, s.procs.workers[h], h);
      hide HomeOk, WorkersOk, RunsOk, OutcomesOk, ResetSince;
    }
    hide WorkerNext, WorkerDisk, OutcomeAt, HomeOk, WorkersOk, RunsOk;
  }

  lemma WorkerOwn(s: Lane, g: nat, work: WorkerAct)
    requires HomeOk(s) && WorkersOk(s.procs) && RunsOk(s.disk, s.procs) && OutcomesOk(s) && WorkerCan(s, g, work)
    ensures OutcomeAt(WorkerDo(s, g, work), WorkerDo(s, g, work).procs.workers[g].pc, g)
  {
    var w := s.procs.workers[g];
    assert OutcomeAt(s, w.pc, g) && RunFits(s.procs.codex, w.pc, g);
    assert Unfinished(w) ==> AtHome(s.disk, s.lock, w, g);
    hide HomeOk, WorkersOk, OutcomesOk, ResetSince;
  }

  lemma CodexOutcome(s: Lane, c: nat, run: CodexAct)
    requires GensOk(s) && WorkersOk(s.procs) && OutcomesOk(s) && CodexCan(s, c, run)
    ensures OutcomesOk(CodexDo(s, c, run))
  {
  }

  lemma DispatchOutcome(s: Lane, dispatch: DispatchAct)
    requires Inv(s) && OutcomesOk(s) && DispatchCan(s, dispatch)
    requires Extends(s.codes, DispatchDo(s, dispatch).codes)
    ensures OutcomesOk(DispatchDo(s, dispatch))
  {
    var t := DispatchDo(s, dispatch);
    SpawnsFresh(s, dispatch);
    forall g | g in s.procs.workers
      ensures g in t.procs.workers && OutcomeAt(t, t.procs.workers[g].pc, g)
    {
      assert OutcomeAt(s, s.procs.workers[g].pc, g);
      DispatchFiles(s, dispatch, g);
      hide DispatchDo, DispatchCan, Inv, OutcomesOk, OutcomeAt, Extends, IsGen, MidRemoval;
      KeepsOutcome(s, t, s.procs.workers[g].pc, g);
    }
    hide DispatchDo, DispatchCan, Inv, Extends;
  }

  lemma SpawnsFresh(s: Lane, dispatch: DispatchAct)
    requires DispatchCan(s, dispatch)
    ensures var t := DispatchDo(s, dispatch);
      forall g :: g in t.procs.workers && g !in s.procs.workers ==> t.procs.workers[g].pc.Fresh?
  {
    hide DispatchNext, DispatchDisk, DispatchCodes;
  }

  /** A dispatcher touches no file of an earlier worker that still matters. */
  lemma DispatchFiles(s: Lane, dispatch: DispatchAct, g: nat)
    requires GensOk(s) && HomeOk(s) && LockOk(s) && DispatchCan(s, dispatch) && g in s.procs.workers
    ensures var t := DispatchDo(s, dispatch);
      && g in t.procs.workers && t.procs.workers[g] == s.procs.workers[g] && t.procs.codex == s.procs.codex
      && (g in s.disk.replies ==> g in t.disk.replies && t.disk.replies[g] == s.disk.replies[g])
      && (Unfinished(s.procs.workers[g]) ==> t.disk.temps == s.disk.temps)
      && (IsGen(t.disk, g) && !MidRemoval(t.lock) ==> IsGen(s.disk, g) && !MidRemoval(s.lock))
  {
    hide DispatchCodes, PollOk, PollNext;
    assert Unfinished(s.procs.workers[g]) ==> AtHome(s.disk, s.lock, s.procs.workers[g], g);
  }

  lemma PruneOutcome(s: Lane, prune: PruneAct)
    requires HomeOk(s) && OutcomesOk(s) && PruneCan(s, prune)
    ensures OutcomesOk(PruneDo(s, prune))
  {
    hide MayDelete;
  }

  lemma ReaderOutcome(s: Lane, a: nat, read: ReaderAct)
    requires OutcomesOk(s) && ReaderCan(s, a, read) && Extends(s.codes, ReaderDo(s, a, read).codes)
    ensures OutcomesOk(ReaderDo(s, a, read))
  {
    hide PollNext, PollCodes, Recorded;
  }

  lemma OtherOutcome(f: Faults, s: Lane, step: Step)
    requires OutcomesOk(s) && !f.tornRemoval && Enabled(f, s, step)
    requires step.Advance? || step.OsStart? || step.OsExit? || step.LockDispatch? || step.LockPrune? || step.OwnerKill?
    ensures OutcomesOk(Do(f, s, step))
  {
    hide WorkerDo, CodexDo, DispatchDo, PruneDo, ReaderDo, WorkerCan, CodexCan, DispatchCan, PruneCan, ReaderCan;
  }

  lemma StepOutcome(s: Lane, step: Step)
    requires Inv(s) && History(s) && OutcomesOk(s) && Enabled(NO_FAULTS, s, step)
    ensures OutcomesOk(Do(NO_FAULTS, s, step))
  {
    StepHistory(NO_FAULTS, s, step);
    hide WorkerDo, CodexDo, DispatchDo, PruneDo, ReaderDo, WorkerCan, CodexCan, DispatchCan, PruneCan, ReaderCan;
    hide LockOk, OsOk, GensOk, RunsOk, WorkersOk, HomeOk, History, OutcomesOk, Extends;
    match step
    case ByWorker(g, work) => WorkerOutcome(s, g, work);
    case ByCodex(c, run) => CodexOutcome(s, c, run);
    case ByDispatcher(dispatch) => DispatchOutcome(s, dispatch);
    case ByPruner(prune) => PruneOutcome(s, prune);
    case ByReader(a, read) => ReaderOutcome(s, a, read);
    case _ => OtherOutcome(NO_FAULTS, s, step);
  }

  lemma {:induction false} RunOutcome(r: seq<Lane>, i: nat)
    requires Run(NO_FAULTS, r) && i < |r|
    ensures OutcomesOk(r[i])
  {
    hide Inv, History;
    if i > 0 {
      RunOutcome(r, i - 1);
      RunHistory(r, i - 1);
      assert Next(NO_FAULTS, r[i - 1], r[i]);
      var step :| Enabled(NO_FAULTS, r[i - 1], step) && r[i] == Do(NO_FAULTS, r[i - 1], step);
      StepOutcome(r[i - 1], step);
    }
  }

  predicate Succeeded(c: Codex) {
    c.Exited? && c.rc == 0 && c.staged != ""
  }

  /** A lane of which worker `g` has recorded the status, and nobody is removing files. */
  predicate Over(s: Lane, g: nat) {
    IsGen(s.disk, g) && g in s.procs.workers && s.procs.workers[g].pc.Finished? && !MidRemoval(s.lock)
  }

  /** Such a lane's status and reply are what its worker's codex run left, if that ran at all. */
  lemma OverIsExit(r: seq<Lane>, i: nat, g: nat)
    requires Run(NO_FAULTS, r) && i < |r| && Over(r[i], g)
    ensures var s := r[i];
      if g in s.procs.codex then
        && s.procs.codex[g].Exited? && s.disk.status == Some(s.procs.codex[g].rc)
        && (Succeeded(s.procs.codex[g]) ==> g in s.disk.replies && s.disk.replies[g] == s.procs.codex[g].staged)
      else s.disk.status.Some? && s.disk.status.value != 0
    ensures ReplyWhole(r[i].disk, Some(g)) ==> g in r[i].procs.codex && Succeeded(r[i].procs.codex[g])
  {
    RunOutcome(r, i);
    RunHistory(r, i);
    assert OutcomeAt(r[i], r[i].procs.workers[g].pc, g);
  }

  /**
   It is completed, and reported with 0, exactly when that run exited 0, wrote something, and its log does not
   end within a turn.
   */
  lemma CompletedExactly(r: seq<Lane>, i: nat, g: nat)
    requires Run(NO_FAULTS, r) && i < |r| && Over(r[i], g)
    ensures var s := r[i];
      VerdictOf(s) == Completed <==>
        && g in s.procs.codex && s.procs.codex[g].Exited? && s.procs.codex[g].rc == 0 && s.procs.codex[g].staged != ""
        && !(g in s.disk.logs && s.disk.logs[g].started && !s.disk.logs[g].completed)
    ensures var s := r[i];
      g in s.procs.codex && s.procs.codex[g].Exited? && s.procs.codex[g].rc < 256 ==>
        ReportExit(Observed(Some(g), PidAlive(s.disk, s.procs), s.disk.status, s.disk, s.now))
        == if s.procs.codex[g].rc == 0 && VerdictOf(s) != Completed then 1 else s.procs.codex[g].rc
  {
    var s := r[i];
    OverIsExit(r, i, g);
    var code := s.disk.status.value;
    var v := Observed(Some(g), PidAlive(s.disk, s.procs), s.disk.status, s.disk, s.now);
    assert VerdictOf(s) == Classify(v);
    ItoaIsCanonical(code);
    hide Run, Itoa, PidAlive;
    VerdictMeans(v);
    if code < 256 { assert AllDigits(v.status) && Value(v.status) == code by { DigitsOf(code); } ExitMeans(v); }
  }

  lemma DigitsOf(code: nat)
    ensures AllDigits(Itoa(code)) && Value(Itoa(code)) == code
  {
  }
}
