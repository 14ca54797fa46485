/** While a process holds the shared lock, a settled verdict stays what it is, however its reads are spread. */
module LaneStability {
  import opened Options
  import opened LaneVerdict
  import opened LaneProtocol
  import opened LaneInvariant
  import opened LaneHistory
  import opened LaneTheorems

  /** What a shared lock holder may rely on between an earlier and a later moment. */
  ghost predicate Onward(s: Lane, t: Lane) {
    && t.disk.meta == s.disk.meta && t.disk.pid == s.disk.pid && s.now <= t.now
    && (s.disk.status.Some? ==> t.disk.status == s.disk.status)
    && (Settling(s.disk, s.procs) ==> Settling(t.disk, t.procs))
    && (Quiet(s.procs) ==> Quiet(t.procs) && t.disk.replies == s.disk.replies && FrozenLogs(s, t))
    && (s.disk.meta.Some? && !PidAlive(s.disk, s.procs) ==> !PidAlive(t.disk, t.procs))
  }

  /** The log of a codex run that has exited no longer changes. */
  ghost predicate FrozenLogs(s: Lane, t: Lane) {
    forall c :: c in s.procs.codex && s.procs.codex[c].Exited? ==>
      && c in t.procs.codex && t.procs.codex[c] == s.procs.codex[c]
      && LogOf(t.disk, Some(c)) == LogOf(s.disk, Some(c))
  }

  lemma OnwardTransitive(s: Lane, t: Lane, u: Lane)
    requires Onward(s, t) && Onward(t, u)
    ensures Onward(s, u)
  {
  }

  lemma WorkerOnward(s: Lane, g: nat, work: WorkerAct)
    requires Inv(s) && History(s) && s.lock.Shared? && WorkerCan(s, g, work)
    ensures Onward(s, WorkerDo(s, g, work))
  {
    if Unfinished(s.procs.workers[g]) {
      WorkerInv(s, g, work);
      WorkerHistory(s, g, work);
      hide WorkerDo, Onward, LockOk, PollsOk, CodesOk, GensOk, RunsOk, WorkersOk;
      BusyOnward(s, g, work);
    } else {
      hide Inv, History, Onward, WorkerDo;
      ExitOnward(s, g);
    }
  }

  /** A worker without a status may do anything: the lane is not settling yet. */
  lemma BusyOnward(s: Lane, g: nat, work: WorkerAct)
    requires OsOk(s.procs) && NamedOk(s.disk, s.lock, s.procs) && HomeOk(s) && s.lock.Shared? && WorkerCan(s, g, work)
    requires OsOk(WorkerDo(s, g, work).procs) && NamedOk(WorkerDo(s, g, work).disk, WorkerDo(s, g, work).lock, WorkerDo(s, g, work).procs)
    requires Unfinished(s.procs.workers[g])
    ensures Onward(s, WorkerDo(s, g, work))
  {
    var t := WorkerDo(s, g, work);
    assert AtHome(s.disk, s.lock, s.procs.workers[g], g) && !Quiet(s.procs);
    DeadStaysDead(s, t);
    hide OsOk, HomeOk, NamedOk, PidAlive, Quiet, FrozenLogs, ResetSince, WorkerNext, Recorded;
  }

  /** A worker that exits after recording its status changes nothing that a reader sees. */
  lemma ExitOnward(s: Lane, g: nat)
    requires WorkerCan(s, g, Exit)
    ensures Onward(s, WorkerDo(s, g, Exit))
  {
    var t := WorkerDo(s, g, Exit);
    assert t.disk == s.disk && t.procs.codex == s.procs.codex && t.now == s.now;
    ExitKeepsQuiet(s, g);
    hide WorkerDo, WorkerNext, WorkerDisk, Quiet;
  }

  lemma ExitKeepsQuiet(s: Lane, g: nat)
    requires WorkerCan(s, g, Exit)
    ensures Quiet(WorkerDo(s, g, Exit).procs) <==> Quiet(s.procs)
    ensures !PidAlive(s.disk, s.procs) ==> !PidAlive(s.disk, WorkerDo(s, g, Exit).procs)
  {
    var p, q := s.procs, WorkerDo(s, g, Exit).procs;
    assert forall h :: h in p.workers ==> h in q.workers && (Unfinished(q.workers[h]) <==> Unfinished(p.workers[h]));
    assert q.workers.Keys == p.workers.Keys;
  }

  lemma DeadStaysDead(s: Lane, t: Lane)
    requires OsOk(s.procs) && NamedOk(s.disk, s.lock, s.procs) && OsOk(t.procs) && NamedOk(t.disk, t.lock, t.procs)
    requires s.lock.Shared? && t.lock.Shared? && t.disk.meta == s.disk.meta && t.disk.pid == s.disk.pid && s.disk.meta.Some?
    requires forall g :: g in s.procs.workers && !Up(s.procs.workers[g]) ==> g in t.procs.workers && !Up(t.procs.workers[g])
    ensures !PidAlive(s.disk, s.procs) ==> !PidAlive(t.disk, t.procs)
  {
    if s.disk.pid.Some? {
      AliveMeansUp(s);
      AliveMeansUp(t);
    }
  }

  lemma CodexOnward(s: Lane, c: nat, run: CodexAct)
    requires CodexCan(s, c, run)
    ensures Onward(s, CodexDo(s, c, run))
  {
    assert Quiet(CodexDo(s, c, run).procs) <==> Quiet(s.procs);
  }

  lemma ReaderOnward(s: Lane, a: nat, read: ReaderAct)
    requires LockOk(s) && ReaderCan(s, a, read)
    ensures Onward(s, ReaderDo(s, a, read))
  {
    hide PollNext;
    if read.PollMore? {
      assert ReaderOk(s.disk, s.procs, s.lock.holders[a]);
    }
    hide LockOk;
  }

  lemma OsOnward(f: Faults, s: Lane, step: Step)
    requires OsOk(s.procs) && NamedOk(s.disk, s.lock, s.procs) && s.lock.Shared?
    requires Enabled(f, s, step) && (step.Advance? || step.OsStart? || step.OsExit?)
    ensures Onward(s, Do(f, s, step))
  {
    hide WorkerDo, CodexDo, DispatchDo, PruneDo, ReaderDo, WorkerCan, CodexCan, DispatchCan, PruneCan, ReaderCan;
    var t := Do(f, s, step);
    assert Quiet(t.procs) <==> Quiet(s.procs);
  }

  /** A step between two moments at which some process holds the shared lock. */
  lemma StepOnward(s: Lane, step: Step, a: nat)
    requires Inv(s) && History(s) && Enabled(NO_FAULTS, s, step) && Holds(s.lock, a)
    ensures Onward(s, Do(NO_FAULTS, s, step))
  {
    hide WorkerDo, CodexDo, ReaderDo, WorkerCan, CodexCan, ReaderCan, Onward, OsOk, GensOk, HomeOk, WorkersOk, RunsOk, LockOk;
    match step
    case ByWorker(g, work) => WorkerOnward(s, g, work);
    case ByCodex(c, run) => CodexOnward(s, c, run);
    case ByReader(b, read) => ReaderOnward(s, b, read);
    case _ => OsOnward(NO_FAULTS, s, step);
  }

  lemma NextOnward(r: seq<Lane>, a: nat, j: nat)
    requires Run(NO_FAULTS, r) && 0 < j < |r| && Holds(r[j - 1].lock, a)
    ensures Onward(r[j - 1], r[j])
  {
    RunHistory(r, j - 1);
    assert Next(NO_FAULTS, r[j - 1], r[j]);
    var step :| Enabled(NO_FAULTS, r[j - 1], step) && r[j] == Do(NO_FAULTS, r[j - 1], step);
    hide Run, Enabled, Do, Onward, Inv, History;
    StepOnward(r[j - 1], step, a);
  }

  lemma OnwardReflexive(s: Lane)
    ensures Onward(s, s)
  {
  }

  lemma {:induction false} RunOnward(r: seq<Lane>, a: nat, i: nat, j: nat)
    requires Run(NO_FAULTS, r) && i <= j < |r| && HeldBy(r, a, i, j)
    ensures Onward(r[i], r[j])
    decreases j - i
  {
    hide Run, Onward;
    if i < j {
      RunOnward(r, a, i, j - 1);
      NextOnward(r, a, j);
      OnwardTransitive(r[i], r[j - 1], r[j]);
    } else {
      OnwardReflexive(r[i]);
    }
  }

  /** Holder `a` keeps the shared lock from moment `i` to moment `j`. */
  ghost predicate HeldBy(r: seq<Lane>, a: nat, i: nat, j: nat) {
    forall k :: i <= k <= j && k < |r| ==> Holds(r[k].lock, a)
  }

  /** A classification that reads meta and pid at moment `i`, the status at `j` and the rest at `k`. */
  function VerdictAt(r: seq<Lane>, i: nat, j: nat, k: nat): Verdict
    requires i <= j <= k < |r|
  {
    Classify(Observed(GenOf(r[i].disk), PidAlive(r[i].disk, r[i].procs), r[j].disk.status, r[k].disk, r[k].now))
  }

  /** Any classification after a settled one, by a process still holding the lock, gives the same verdict. */
  ghost predicate VerdictStable(r: seq<Lane>) {
    forall a, i, j, k, i', j', k' ::
      0 <= i <= j <= k <= i' <= j' <= k' < |r| && HeldBy(r, a, i, k') && Settled(VerdictAt(r, i, j, k))
      ==> VerdictAt(r, i', j', k') == VerdictAt(r, i, j, k)
  }

  // ----- the four ways to be settled

  predicate SameOutcome(v: View, w: View) {
    v.hasMeta == w.hasMeta && v.status == w.status && v.reply == w.reply
    && v.turnStarted == w.turnStarted && v.turnCompleted == w.turnCompleted
  }

  /** With a status, a verdict depends on the code, and for 0 on the reply and the log. */
  lemma StatusDecides(v: View, w: View, code: nat)
    requires v.hasMeta && w.hasMeta && v.status == Itoa(code) && w.status == Itoa(code)
    requires code == 0 ==> SameOutcome(v, w)
    ensures Classify(v) == Classify(w)
  {
    ItoaIsCanonical(code);
    hide Itoa;
  }

  lemma RecordedStays(s': Lane, s'': Lane, t': Lane, t'': Lane, v: View, w: View)
    requires Inv(s'') && s'.disk.status.Some? && s''.disk.meta.Some?
    requires Onward(s', s'') && Onward(s', t') && Onward(s'', t'')
    requires v.hasMeta && SeenAs(v, GenOf(s''.disk), s'.disk.status, s'')
    requires w.hasMeta && SeenAs(w, GenOf(s''.disk), t'.disk.status, t'')
    ensures Classify(v) == Classify(w)
  {
    var code := s'.disk.status.value;
    assert Quiet(s''.procs);
    if code == 0 {
      assert ExitedZero(s''.procs.codex, s''.disk.meta.value.gen);
    }
    hide Inv, Classify, Itoa, Quiet, Settling;
    StatusDecides(v, w, code);
  }

  /** A view with these generation and status readings, and the rest read at `s`. */
  predicate SeenAs(v: View, g: Option<nat>, status: Option<nat>, s: Lane) {
    v == Observed(g, v.alive, status, s.disk, s.now)
  }

  lemma DeadStays(s': Lane, s'': Lane, t': Lane, t'': Lane, v: View, w: View)
    requires Inv(s'') && Quiet(s'.procs) && s'.disk.status.None? && s''.disk.meta.Some?
    requires Onward(s', s'') && Onward(s', t') && Onward(s'', t'') && Onward(t', t'')
    requires v.hasMeta && !v.alive && SeenAs(v, GenOf(s''.disk), s'.disk.status, s'')
    requires w.hasMeta && !w.alive && SeenAs(w, GenOf(s''.disk), t'.disk.status, t'')
    requires Settled(Classify(v))
    ensures Classify(v) == Classify(w)
  {
    assert Settling(s'.disk, s'.procs);
    assert t'.disk.status.None? || t'.disk.status == Some(Recovered(t'.disk));
    assert Quiet(s''.procs) && t''.disk.replies == s''.disk.replies && t'.disk.replies == s'.disk.replies;
    var g := s''.disk.meta.value.gen;
    if ReplyWhole(s''.disk, Some(g)) {
      assert g in s''.procs.codex && s''.procs.codex[g].Exited?;
    }
    ItoaIsCanonical(WORKER_LOST);
    ItoaIsCanonical(0);
    hide Inv, Itoa, Quiet, Settling, FrozenLogs, PidAlive;
  }

  lemma SettledThenSame(s: Lane, s': Lane, s'': Lane, t: Lane, t': Lane, t'': Lane)
    requires Inv(s) && Inv(s') && Inv(s'') && s.lock.Shared? && s'.lock.Shared?
    requires Onward(s, s') && Onward(s', s'') && Onward(s', t') && Onward(s'', t'') && Onward(t', t'') && Onward(s, t)
    requires Settled(Classify(Observed(GenOf(s.disk), PidAlive(s.disk, s.procs), s'.disk.status, s''.disk, s''.now)))
    ensures Classify(Observed(GenOf(t.disk), PidAlive(t.disk, t.procs), t'.disk.status, t''.disk, t''.now))
         == Classify(Observed(GenOf(s.disk), PidAlive(s.disk, s.procs), s'.disk.status, s''.disk, s''.now))
  {
    var v := Observed(GenOf(s.disk), PidAlive(s.disk, s.procs), s'.disk.status, s''.disk, s''.now);
    var w := Observed(GenOf(t.disk), PidAlive(t.disk, t.procs), t'.disk.status, t''.disk, t''.now);
    if s.disk.meta.Some? {
      if s'.disk.status.Some? {
        RecordedStays(s', s'', t', t'', v, w);
      } else {
        assert !PidAlive(s.disk, s.procs) by { hide Inv, Onward; AliveIsUnsettled(v); }
        DeadMeansQuiet(s);
        DeadStays(s', s'', t', t'', v, w);
      }
    }
  }

  lemma AliveIsUnsettled(v: View)
    requires v.hasMeta && v.status == "" && Settled(Classify(v)) && (v.alive ==> v.hasPid)
    ensures !v.alive
  {
    ItoaIsCanonical(WORKER_LOST);
  }

  lemma VerdictNeverChanges(r: seq<Lane>)
    requires Run(NO_FAULTS, r)
    ensures VerdictStable(r)
  {
    forall a, i, j, k, i', j', k' |
      0 <= i <= j <= k <= i' <= j' <= k' < |r| && HeldBy(r, a, i, k') && Settled(VerdictAt(r, i, j, k))
      ensures VerdictAt(r, i', j', k') == VerdictAt(r, i, j, k)
    {
      RunInv(NO_FAULTS, r, i);
      RunInv(NO_FAULTS, r, j);
      RunInv(NO_FAULTS, r, k);
      assert Holds(r[i].lock, a) && Holds(r[j].lock, a);
      hide Inv, Onward, Run;
      RunOnward(r, a, i, j);
      RunOnward(r, a, j, k);
      RunOnward(r, a, j, j');
      RunOnward(r, a, k, k');
      RunOnward(r, a, j', k');
      RunOnward(r, a, i, i');
      SettledThenSame(r[i], r[j], r[k], r[i'], r[j'], r[k']);
    }
  }
}
