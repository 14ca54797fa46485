/** What each process of the lane protocol gets done when it runs alone, from any lane that a run can reach. */
module LaneProgress {
  import opened Options
  import opened LaneVerdict
  import opened LaneProtocol
  import opened LaneInvariant
  import opened LaneTheorems
  import opened LaneFaults
  import opened LaneOutcome

  // ----- the dispatcher

  /**
   A dispatcher that takes the lock leaves the lane as it was exactly when the lane is busy: it has meta, no status,
   and a worker that reads alive or a meta less than five seconds old. Any other lane it resets and publishes.
   */
  lemma DispatchAlone(f: Faults, r: seq<Lane>) returns (r': seq<Lane>)
    requires Run(f, r) && Last(r).lock == FREE
    ensures Run(f, r') && |r| <= |r'| && r == r'[..|r|]
    ensures var s := Last(r);
      Last(r') == if s.disk.meta.Some? && s.disk.status.None?
                     && (PidAlive(s.disk, s.procs) || s.now - s.disk.meta.value.published < 5_000_000_000)
        then s else Prepared(s)
  {
    var s := Last(r);
    hide Run, PidAlive, WorkerDo, WorkerCan, CodexDo, CodexCan, PruneDo, PruneCan, ReaderDo, ReaderCan;
    if LetsThrough(s) {
      r' := Prepare(f, r);
    } else {
      r' := Grow(f, r, LockDispatch(false));
      r' := Grow(f, r', ByDispatcher(Check));
      r' := Grow(f, r', ByDispatcher(Confirm));
    }
  }

  /** It then starts the worker, records it, and lets the lane go. */
  function Handed(s: Lane, g: nat, p: nat): Lane {
    s.(disk := s.disk.(pid := Some(p), started := Some(s.procs.nextStart)),
       lock := FREE,
       procs := s.procs.(workers := s.procs.workers[g := Worker(p, s.procs.nextStart, Fresh)],
                         os := s.procs.os[p := s.procs.nextStart], nextStart := s.procs.nextStart + 1))
  }

  lemma HandOver(f: Faults, r: seq<Lane>, g: nat, p: nat) returns (r': seq<Lane>)
    requires Run(f, r) && Last(r).lock == Exclusive(Dispatcher(false, Published(g))) && p !in Last(r).procs.os
    ensures Run(f, r') && |r| <= |r'| && r == r'[..|r|] && Last(r') == Handed(Last(r), g, p)
  {
    hide Run, WorkerDo, WorkerCan, CodexDo, CodexCan, PruneDo, PruneCan, ReaderDo, ReaderCan;
    r' := Grow(f, r, ByDispatcher(Spawn(p)));
    r' := Grow(f, r', ByDispatcher(RecordStart));
    r' := Grow(f, r', ByDispatcher(RecordPid));
  }

  // ----- the worker and its codex

  lemma GrowWorker(f: Faults, r: seq<Lane>, g: nat, work: WorkerAct) returns (r': seq<Lane>)
    requires Run(f, r) && WorkerCan(Last(r), g, work)
    ensures Run(f, r') && r' == r + [WorkerDo(Last(r), g, work)] && Last(r') == WorkerDo(Last(r), g, work)
  {
    hide Run, WorkerDo, WorkerCan;
    r' := Grow(f, r, ByWorker(g, work));
  }

  lemma GrowCodex(f: Faults, r: seq<Lane>, g: nat, run: CodexAct) returns (r': seq<Lane>)
    requires Run(f, r) && CodexCan(Last(r), g, run)
    ensures Run(f, r') && r' == r + [CodexDo(Last(r), g, run)] && Last(r') == CodexDo(Last(r), g, run)
  {
    hide Run, CodexDo, CodexCan;
    r' := Grow(f, r, ByCodex(g, run));
  }

  /** Worker `g` at `pc`, beside disk `d`. */
  function At(s: Lane, d: Disk, g: nat, pc: WorkerPc): Lane
    requires g in s.procs.workers
  {
    s.(disk := d, procs := s.procs.(workers := s.procs.workers[g := s.procs.workers[g].(pc := pc)]))
  }

  lemma AtAgain(s: Lane, d: Disk, g: nat, pc: WorkerPc, d': Disk, pc': WorkerPc)
    requires g in s.procs.workers
    ensures At(At(s, d, g, pc), d', g, pc') == At(s, d', g, pc')
  {
    var w := s.procs.workers[g];
    assert s.procs.workers[g := w.(pc := pc)][g := w.(pc := pc')] == s.procs.workers[g := w.(pc := pc')];
  }

  /** The disk after the reply of a successful run was published and the temp file swept. */
  function Delivered(d: Disk, g: nat, text: string, rc: nat): Disk {
    d.(replies := if rc == 0 && text != "" then d.replies[g := text] else d.replies, temps := d.temps - {g})
  }

  lemma Reaps(s: Lane, g: nat, rc: nat, text: string)
    requires g in s.procs.workers && s.procs.workers[g].pc == Waiting(g) && g in s.procs.codex && s.procs.codex[g] == Exited(rc, text)
    ensures WorkerCan(s, g, Reap) && WorkerDo(s, g, Reap) == At(s, s.disk, g, Reaped(g, rc))
  {
  }

  lemma Renames(s: Lane, g: nat, rc: nat, text: string)
    requires g in s.procs.workers && s.procs.workers[g].pc == Reaped(g, rc) && g in s.disk.temps && s.disk.temps[g] == text
    ensures WorkerCan(s, g, Rename)
    ensures WorkerDo(s, g, Rename) == At(s, WorkerDo(s, g, Rename).disk, g, Renamed(g, rc))
    ensures var d := WorkerDo(s, g, Rename).disk; d.(temps := d.temps - {g}) == Delivered(s.disk, g, text, rc)
  {
    assert s.disk.temps - {g} - {g} == s.disk.temps - {g};
  }

  lemma Sweeps(s: Lane, g: nat, rc: nat)
    requires g in s.procs.workers && s.procs.workers[g].pc == Renamed(g, rc)
    ensures WorkerCan(s, g, Sweep) && WorkerDo(s, g, Sweep) == At(s, s.disk.(temps := s.disk.temps - {g}), g, Ending(rc))
  {
  }

  lemma Records(s: Lane, g: nat, rc: nat)
    requires g in s.procs.workers && s.procs.workers[g].pc == Ending(rc)
    ensures WorkerCan(s, g, RecordExit)
    ensures WorkerDo(s, g, RecordExit) == At(s, s.disk.(status := Some(rc)), g, Finished(true)).(codes := Recorded(s.codes, s.disk, rc))
  {
  }

  /** A worker that waits for a codex that exited `rc` publishes what it wrote and records its code. */
  lemma PublishAlone(f: Faults, r: seq<Lane>, g: nat, text: string, rc: nat) returns (r': seq<Lane>)
    requires Run(f, r) && g in Last(r).procs.workers && Last(r).procs.workers[g].pc == Waiting(g)
    requires var s := Last(r); g in s.procs.codex && s.procs.codex[g] == Exited(rc, text) && g in s.disk.temps && s.disk.temps[g] == text
    ensures Run(f, r') && |r| <= |r'| && r == r'[..|r|]
    ensures var s := Last(r);
      Last(r') == At(s, Delivered(s.disk, g, text, rc).(status := Some(rc)), g, Finished(true)).(codes := Recorded(s.codes, s.disk, rc))
  {
    var s := Last(r);
    hide Run, Last, WorkerDo, WorkerCan;
    Reaps(s, g, rc, text);
    r' := GrowWorker(f, r, g, Reap);
    Renames(Last(r'), g, rc, text);
    r' := GrowWorker(f, r', g, Rename);
    var d := Last(r').disk;
    AtAgain(s, s.disk, g, Reaped(g, rc), d, Renamed(g, rc));
    Sweeps(Last(r'), g, rc);
    r' := GrowWorker(f, r', g, Sweep);
    AtAgain(s, d, g, Renamed(g, rc), Delivered(s.disk, g, text, rc), Ending(rc));
    Records(Last(r'), g, rc);
    r' := GrowWorker(f, r', g, RecordExit);
    AtAgain(s, Delivered(s.disk, g, text, rc), g, Ending(rc), Delivered(s.disk, g, text, rc).(status := Some(rc)), Finished(true));
  }

  lemma Loads(s: Lane, g: nat)
    requires g in s.procs.workers && s.procs.workers[g].pc.Fresh? && s.disk.cmd == Some(g)
    ensures WorkerCan(s, g, Load) && WorkerDo(s, g, Load) == At(s, s.disk, g, Loaded(g))
  {
  }

  function WithCodex(s: Lane, g: nat, c: Codex): Lane {
    s.(procs := s.procs.(codex := s.procs.codex[g := c]))
  }

  lemma Starts(s: Lane, g: nat)
    requires g in s.procs.workers && s.procs.workers[g].pc == Loaded(g)
    ensures WorkerCan(s, g, Start)
    ensures WorkerDo(s, g, Start) == WithCodex(At(s, s.disk.(logs := s.disk.logs[g := Log(false, false)]), g, Waiting(g)), g, Active)
  {
  }

  /** A codex that writes the turn events of `log` and the output `text`, and exits `rc`. */
  lemma CodexAlone(f: Faults, r: seq<Lane>, g: nat, text: string, log: Log, rc: nat) returns (r': seq<Lane>)
    requires Run(f, r) && g in Last(r).procs.codex && Last(r).procs.codex[g].Active?
    requires g in Last(r).disk.logs && Last(r).disk.logs[g] == Log(false, false)
    ensures Run(f, r') && |r| <= |r'| && r == r'[..|r|]
    ensures var s := Last(r);
      Last(r') == WithCodex(s.(disk := s.disk.(temps := s.disk.temps[g := text], logs := s.disk.logs[g := log])), g, Exited(rc, text))
  {
    hide Run, Do, Enabled;
    r' := GrowCodex(f, r, g, Append(log));
    r' := GrowCodex(f, r', g, Write(text));
    r' := GrowCodex(f, r', g, Quit(rc));
  }

  function Staging(d: Disk, g: nat, text: string, log: Log): Disk {
    d.(temps := d.temps[g := text], logs := d.logs[g := log])
  }

  /** A new worker starts its codex and waits for it. */
  lemma StartAlone(f: Faults, r: seq<Lane>, g: nat, text: string, log: Log, rc: nat) returns (r': seq<Lane>)
    requires Run(f, r) && g in Last(r).procs.workers && Last(r).procs.workers[g].pc.Fresh? && Last(r).disk.cmd == Some(g)
    ensures Run(f, r') && |r| <= |r'| && r == r'[..|r|]
    ensures var s := Last(r); Last(r') == WithCodex(At(s, Staging(s.disk, g, text, log), g, Waiting(g)), g, Exited(rc, text))
  {
    var s := Last(r);
    hide Run, Last, WorkerDo, WorkerCan;
    Loads(s, g);
    r' := GrowWorker(f, r, g, Load);
    Starts(Last(r'), g);
    r' := GrowWorker(f, r', g, Start);
    var d := s.disk.(logs := s.disk.logs[g := Log(false, false)]);
    AtAgain(s, s.disk, g, Loaded(g), d, Waiting(g));
    assert Last(r') == WithCodex(At(s, d, g, Waiting(g)), g, Active);
    r' := CodexAlone(f, r', g, text, log, rc);
    assert d.logs[g := log] == s.disk.logs[g := log];
    assert s.procs.codex[g := Active][g := Exited(rc, text)] == s.procs.codex[g := Exited(rc, text)];
  }

  /** The lane beside which worker `g` has run codex, published what it wrote and recorded its exit code. */
  function Worked(s: Lane, g: nat, text: string, log: Log, rc: nat): Lane
    requires g in s.procs.workers
  {
    var d := Delivered(s.disk, g, text, rc).(logs := s.disk.logs[g := log], status := Some(rc));
    WithCodex(At(s, d, g, Finished(true)), g, Exited(rc, text)).(codes := Recorded(s.codes, s.disk, rc))
  }

  /** A new worker whose codex writes `text` and the turn events of `log` and exits `rc` leaves exactly these behind. */
  lemma WorkAlone(f: Faults, r: seq<Lane>, g: nat, text: string, log: Log, rc: nat) returns (r': seq<Lane>)
    requires Run(f, r) && g in Last(r).procs.workers && Last(r).procs.workers[g].pc.Fresh? && Last(r).disk.cmd == Some(g)
    ensures Run(f, r') && |r| <= |r'| && r == r'[..|r|] && Last(r') == Worked(Last(r), g, text, log, rc)
  {
    var s := Last(r);
    hide Run, Last;
    r' := StartAlone(f, r, g, text, log, rc);
    var d := Staging(s.disk, g, text, log);
    r' := PublishAlone(f, r', g, text, rc);
    AtAgain(s, d, g, Waiting(g), Delivered(d, g, text, rc).(status := Some(rc)), Finished(true));
    assert d.temps - {g} == s.disk.temps - {g};
  }

  /** How a lane with meta and a status reads. */
  lemma ReadsAs(s: Lane, g: nat, rc: nat)
    requires IsGen(s.disk, g) && s.disk.status == Some(rc) && g in s.disk.replies && g in s.disk.logs
    ensures var v, text, log := VerdictOf(s), s.disk.replies[g], s.disk.logs[g];
      && (v == Completed <==> rc == 0 && text != "" && (log.started ==> log.completed))
      && (v == Failed <==> rc !in {0, 75} || (rc == 0 && text == ""))
      && v !in {NoRun, Pending, Running}
  {
    ItoaIsCanonical(rc);
    ItoaIsCanonical(0);
    hide Itoa, PidAlive;
    VerdictMeans(Observed(GenOf(s.disk), PidAlive(s.disk, s.procs), s.disk.status, s.disk, s.now));
  }

  lemma HandedIs(s: Lane, p: nat)
    ensures Prepared(s).lock == Exclusive(Dispatcher(false, Published(s.nextGen))) && Prepared(s).procs == s.procs
    ensures var g, t := s.nextGen, Handed(Prepared(s), s.nextGen, p);
      && t.lock == FREE && t.disk.meta == Some(Meta(g, s.now)) && t.disk.cmd == Some(g) && t.disk.pid == Some(p)
      && g in t.procs.workers && t.procs.workers[g].pc.Fresh? && g in t.disk.replies && t.disk.replies[g] == ""
  {
  }

  lemma WorkedIs(s: Lane, g: nat, text: string, log: Log, rc: nat)
    requires g in s.procs.workers && g in s.disk.replies && s.disk.replies[g] == ""
    ensures var t := Worked(s, g, text, log, rc);
      && t.lock == s.lock && t.disk.meta == s.disk.meta && t.disk.status == Some(rc) && t.disk.pid == s.disk.pid
      && g in t.disk.replies && t.disk.replies[g] == (if rc == 0 then text else "") && g in t.disk.logs && t.disk.logs[g] == log
  {
  }

  /**
   A dispatch to any lane that is free and not busy can end in every outcome: with any exit code, output and
   turn events of its codex. The lane then reads as they say, and as nothing else.
   */
  lemma EveryOutcome(f: Faults, r: seq<Lane>, p: nat, text: string, log: Log, rc: nat) returns (r': seq<Lane>)
    requires Run(f, r) && Last(r).lock == FREE && p !in Last(r).procs.os
    requires var s := Last(r);
      s.disk.meta.Some? && s.disk.status.None? ==> !PidAlive(s.disk, s.procs) && s.now - s.disk.meta.value.published >= 5_000_000_000
    ensures Run(f, r') && |r| <= |r'| && r == r'[..|r|]
    ensures var s, t, g := Last(r), Last(r'), Last(r).nextGen;
      && t.lock == FREE && t.disk.meta == Some(Meta(g, s.now)) && t.disk.status == Some(rc) && t.disk.pid == Some(p)
      && g in t.disk.replies && t.disk.replies[g] == (if rc == 0 then text else "") && g in t.disk.logs && t.disk.logs[g] == log
    ensures var v := VerdictOf(Last(r'));
      && (v == Completed <==> rc == 0 && text != "" && (log.started ==> log.completed))
      && (v == Failed <==> rc !in {0, 75} || (rc == 0 && text == ""))
      && v !in {NoRun, Pending, Running}
  {
    var s, g := Last(r), Last(r).nextGen;
    HandedIs(s, p);
    WorkedIs(Handed(Prepared(s), g, p), g, text, log, rc);
    hide Run, PidAlive, VerdictOf, Prepared, Handed, Worked;
    r' := DispatchAlone(f, r);
    r' := HandOver(f, r', g, p);
    r' := WorkAlone(f, r', g, text, log, rc);
    hide Last;
    ReadsAs(Last(r'), g, rc);
  }

  // ----- the awaiter

  function Polled(s: Lane, a: nat, p: Poll): Lane {
    var next := PollNext(p, s.disk, PidAlive(s.disk, s.procs), s.now);
    s.(disk := PollDisk(p, s.disk),
       lock := if next.Some? then Shared(map[a := Awaiting(next.value)]) else FREE,
       codes := PollCodes(p, s.disk, s.codes))
  }

  lemma GrowPoll(f: Faults, r: seq<Lane>, a: nat, p: Poll) returns (r': seq<Lane>)
    requires Run(f, r) && Last(r).lock == Shared(map[a := Awaiting(p)])
    ensures Run(f, r') && r' == r + [Polled(Last(r), a, p)] && Last(r') == Polled(Last(r), a, p)
  {
    var s := Last(r);
    hide Run, PollNext, PollDisk, PollCodes, PidAlive;
    r' := Grow(f, r, ByReader(a, PollMore));
    assert map[a := Awaiting(p)] - {a} == map[];
    forall q: Poll
      ensures map[a := Awaiting(p)][a := Awaiting(q)] == map[a := Awaiting(q)]
    {
    }
  }

  /** The lane with one awaiter, at `p`. */
  function AwaitedBy(s: Lane, a: nat, p: Poll): Lane {
    s.(lock := Shared(map[a := Awaiting(p)]))
  }

  lemma OpenPoll(f: Faults, r: seq<Lane>, a: nat) returns (r': seq<Lane>)
    requires Run(f, r) && Last(r).lock == FREE && Last(r).disk.meta.Some?
    ensures Run(f, r') && |r| <= |r'| && r == r'[..|r|]
    ensures Last(r') == AwaitedBy(Last(r), a, Poll(Last(r).disk.meta.value.gen, Verify, 0, 0))
  {
    var next := Awaiting(Poll(Last(r).disk.meta.value.gen, Verify, 0, 0));
    hide Run, WorkerDo, WorkerCan, CodexDo, CodexCan, DispatchDo, DispatchCan, PruneDo, PruneCan;
    r' := Grow(f, r, ByReader(a, Lock(false)));
    r' := Grow(f, r', ByReader(a, ReadMeta));
    assert map[a := Opening(false)][a := next] == map[a := next];
  }

  /** One round on a lane with a status: the awaiter reports it and leaves. */
  lemma ReportRound(f: Faults, r: seq<Lane>, s: Lane, a: nat, p: Poll) returns (r': seq<Lane>)
    requires Run(f, r) && Last(r) == AwaitedBy(s, a, p) && p.pc.Verify? && IsGen(s.disk, p.gen) && s.disk.status.Some?
    ensures Run(f, r') && |r| <= |r'| && r == r'[..|r|] && Last(r') == s.(lock := FREE)
  {
    hide Run, PidAlive;
    r' := GrowPoll(f, r, a, p);
    r' := GrowPoll(f, r', a, p.(pc := Look));
    r' := GrowPoll(f, r', a, p.(pc := Report));
  }

  /** One round on a lane without a status. */
  lemma ProbeRound(f: Faults, r: seq<Lane>, s: Lane, a: nat, p: Poll) returns (r': seq<Lane>)
    requires Run(f, r) && Last(r) == AwaitedBy(s, a, p) && p.pc.Verify? && IsGen(s.disk, p.gen) && s.disk.status.None?
    ensures Run(f, r') && |r| <= |r'| && r == r'[..|r|]
    ensures Last(r') == AwaitedBy(s, a,
      if s.disk.pid.None? then
        if s.now - s.disk.meta.value.published > 15_000_000_000 then p.(pc := Record(75)) else p
      else if PidAlive(s.disk, s.procs) then Poll(p.gen, Verify, 0, p.since + 1)
      else if p.grace < 3 then Poll(p.gen, Verify, p.grace + 1, p.since + 1)
      else Poll(p.gen, Record(if p.gen in s.disk.replies && s.disk.replies[p.gen] != "" then 0 else 75), p.grace + 1, p.since + 1))
  {
    hide Run, PidAlive;
    r' := GrowPoll(f, r, a, p);
    r' := GrowPoll(f, r', a, p.(pc := Look));
    r' := GrowPoll(f, r', a, p.(pc := Probe));
  }

  /** An awaiter that has a code to record does so, and leaves. */
  lemma RecordRound(f: Faults, r: seq<Lane>, s: Lane, a: nat, p: Poll) returns (r': seq<Lane>)
    requires Run(f, r) && Last(r) == AwaitedBy(s, a, p) && p.pc.Record? && IsGen(s.disk, p.gen)
    ensures Run(f, r') && |r| <= |r'| && r == r'[..|r|]
    ensures Last(r') == s.(disk := s.disk.(status := Some(p.pc.code)), lock := FREE, codes := s.codes[p.gen := p.pc.code])
  {
    hide Run, PidAlive;
    r' := GrowPoll(f, r, a, p);
    if p.pc.code == 0 {
      var t := s.(disk := s.disk.(status := Some(0)), codes := s.codes[p.gen := 0]);
      r' := ReportRound(f, r', t, a, p.(pc := Verify));
    }
  }

  /**
   An awaiter of a lane without a status records 75 if no worker was named within 15 seconds. If one was and
   reads dead, it records 0 if there is a reply and 75 otherwise, on its fourth reading.
   */
  lemma AwaitAlone(f: Faults, r: seq<Lane>, a: nat) returns (r': seq<Lane>)
    requires Run(f, r) && Last(r).lock == FREE && Last(r).disk.meta.Some? && Last(r).disk.status.None?
    requires var s := Last(r);
      if s.disk.pid.None? then s.now - s.disk.meta.value.published > 15_000_000_000 else !PidAlive(s.disk, s.procs)
    ensures Run(f, r') && |r| <= |r'| && r == r'[..|r|]
    ensures var s, g := Last(r), Last(r).disk.meta.value.gen;
      var code := if s.disk.pid.Some? && g in s.disk.replies && s.disk.replies[g] != "" then 0 else 75;
      Last(r') == s.(disk := s.disk.(status := Some(code)), codes := s.codes[g := code])
  {
    var s, g := Last(r), Last(r).disk.meta.value.gen;
    assert s == s.(lock := FREE);
    hide Run, Last, PidAlive;
    r' := OpenPoll(f, r, a);
    r' := ProbeRound(f, r', s, a, Poll(g, Verify, 0, 0));
    if s.disk.pid.Some? {
      r' := ProbeRound(f, r', s, a, Poll(g, Verify, 1, 1));
      r' := ProbeRound(f, r', s, a, Poll(g, Verify, 2, 2));
      assert r == r'[..|r|];
      r' := ProbeRound(f, r', s, a, Poll(g, Verify, 3, 3));
      r' := RecordRound(f, r', s, a, Poll(g, Record(if g in s.disk.replies && s.disk.replies[g] != "" then 0 else 75), 4, 4));
    } else {
      r' := RecordRound(f, r', s, a, Poll(g, Record(75), 0, 0));
    }
  }

  /** An awaiter of any other lane that has meta reads it again, or reports its status and leaves it as it is. */
  lemma AwaitOn(f: Faults, r: seq<Lane>, a: nat) returns (r': seq<Lane>)
    requires Run(f, r) && Last(r).lock == FREE && Last(r).disk.meta.Some?
    requires var s := Last(r); s.disk.status.None? ==>
      if s.disk.pid.None? then s.now - s.disk.meta.value.published <= 15_000_000_000 else PidAlive(s.disk, s.procs)
    ensures Run(f, r') && |r| <= |r'| && r == r'[..|r|]
    ensures Last(r').(lock := FREE) == Last(r)
    ensures Last(r').lock == FREE <==> Last(r).disk.status.Some?
  {
    var s, g := Last(r), Last(r).disk.meta.value.gen;
    assert s == s.(lock := FREE);
    hide Run, PidAlive;
    r' := OpenPoll(f, r, a);
    if s.disk.status.Some? {
      r' := ReportRound(f, r', s, a, Poll(g, Verify, 0, 0));
    } else {
      r' := ProbeRound(f, r', s, a, Poll(g, Verify, 0, 0));
      assert a in Last(r').lock.holders;
    }
  }

  // ----- the pruner

  lemma Scans(f: Faults, r: seq<Lane>) returns (r': seq<Lane>)
    requires Run(f, r) && Last(r).lock == FREE
    ensures Run(f, r') && |r| <= |r'| && r == r'[..|r|]
    ensures var s := Last(r);
      Last(r') == if VerdictOf(s) in {Completed, Failed, NoRun} then s.(lock := Exclusive(Pruner(Deleting))) else s
  {
    hide Run, Observed, PidAlive, Classify, WorkerDo, WorkerCan, CodexDo, CodexCan, DispatchDo, DispatchCan, ReaderDo, ReaderCan;
    r' := Grow(f, r, LockPrune);
    r' := Grow(f, r', ByPruner(ScanMore));
    r' := Grow(f, r', ByPruner(ScanMore));
    r' := Grow(f, r', ByPruner(ScanMore));
  }

  lemma GrowDelete(f: Faults, r: seq<Lane>, file: File) returns (r': seq<Lane>)
    requires Run(f, r) && Last(r).lock == Exclusive(Pruner(Deleting))
    ensures Run(f, r') && |r'| == |r| + 1 && r == r'[..|r|] && Last(r') == Last(r).(disk := Removed(Last(r).disk, file))
  {
    hide Run, Removed;
    r' := Grow(f, r, ByPruner(Delete(file)));
  }

  lemma DeletesAll(f: Faults, r: seq<Lane>) returns (r': seq<Lane>)
    requires Run(f, r) && Last(r).lock == Exclusive(Pruner(Deleting))
    ensures Run(f, r') && |r| <= |r'| && r == r'[..|r|]
    ensures var d := Last(r).disk; Last(r') == Last(r).(disk := Disk(None, None, None, None, None, d.replies, d.temps, d.logs))
  {
    hide Run;
    r' := GrowDelete(f, r, StatusFile);
    r' := GrowDelete(f, r', PidFile);
    r' := GrowDelete(f, r', StartedFile);
    assert r == r'[..|r|];
    r' := GrowDelete(f, r', CmdFile);
    r' := GrowDelete(f, r', MetaFile);
  }

  /**
   A pruner empties the lane exactly when it reads as completed, failed or never run, and leaves any other lane as
   it was.
   */
  lemma PruneAlone(f: Faults, r: seq<Lane>) returns (r': seq<Lane>)
    requires Run(f, r) && Last(r).lock == FREE
    ensures Run(f, r') && |r| <= |r'| && r == r'[..|r|]
    ensures var s := Last(r);
      Last(r') == if VerdictOf(s) in {Completed, Failed, NoRun}
        then s.(disk := Disk(None, None, None, None, None, s.disk.replies, s.disk.temps, s.disk.logs)) else s
  {
    var s := Last(r);
    r' := Scans(f, r);
    hide Run, VerdictOf;
    if VerdictOf(s) in {Completed, Failed, NoRun} {
      r' := DeletesAll(f, r');
      r' := Grow(f, r', ByPruner(Done));
    }
  }
}
