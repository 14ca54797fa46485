/**
 The lane protocol of codex-ask as a state machine: one lane directory, its lock, and any number of
 dispatchers, workers, codex runs, awaiters, watchers and pruners taking one step at a time.

 A generation is one dispatch. Its reply, temp and log files have names minted together, so one number
 stands for all of them. A process blocked on the lane lock has read nothing yet, so only lock holders
 are represented. A worker writes its status without the lock.
 */
module LaneProtocol {
  import opened Options
  import opened LaneVerdict

  const BUSY_WINDOW: int := 5_000_000_000
  const REGISTER_GRACE: int := 15_000_000_000
  const SPAWN_FAILED: nat := 126
  const GRACE_POLLS: nat := 4

  datatype Meta = Meta(gen: nat, published: int)
  datatype Log = Log(started: bool, completed: bool)

  /** A codex run; `staged` is what its output file held when it exited. */
  datatype Codex = Active | Exited(rc: nat, staged: string)

  datatype WorkerPc =
    | Fresh
    | Loaded(c: nat)
    | Waiting(c: nat)
    | Reaped(c: nat, rc: nat)
    | Renamed(c: nat, rc: nat)
    | Ending(rc: nat)
    | Finished(up: bool)
    | Killed

  datatype Worker = Worker(pid: nat, start: nat, pc: WorkerPc)

  /** pollStatus. `since` is ghost: pid probes made since a worker was last killed. */
  datatype PollPc = Verify | Look | Probe | Record(code: nat) | Report | Reused
  datatype Poll = Poll(gen: nat, pc: PollPc, grace: nat, since: nat)

  datatype DispatchPc =
    | Checking
    | Confirming(recent: bool)
    | Staging
    | Resetting(g: nat, removed: nat)
    | Writing(g: nat)
    | Publishing(g: nat)
    | Published(g: nat)
    | Spawned(g: nat)
    | Registered(g: nat)
    | Polling(poll: Poll)

  /** classify reads the pid, then the status, then everything else. */
  datatype PrunePc =
    | Scan
    | ScanStatus(seen: Option<nat>, alive: bool)
    | ScanRest(seen: Option<nat>, alive: bool, status: Option<nat>)
    | Deleting

  datatype Owner = Dispatcher(foreground: bool, pc: DispatchPc) | Pruner(scan: PrunePc)
  datatype Reader = Opening(watch: bool) | Awaiting(poll: Poll) | Watching(seen: Option<nat>)
  datatype Lock = Shared(holders: map<nat, Reader>) | Exclusive(owner: Owner)

  datatype File = StatusFile | PidFile | StartedFile | MetaFile | CmdFile | ReplyFile(g: nat) | TempFile(g: nat) | LogFile(g: nat)

  datatype Disk = Disk(
    meta: Option<Meta>,
    cmd: Option<nat>,
    status: Option<nat>,
    pid: Option<nat>,
    started: Option<nat>,
    replies: map<nat, string>,
    temps: map<nat, string>,
    logs: map<nat, Log>)

  /** `os` maps every live pid to its start time. */
  datatype Procs = Procs(workers: map<nat, Worker>, codex: map<nat, Codex>, os: map<nat, nat>, nextStart: nat)

  /** `codes` is ghost: the last status recorded in each generation. */
  datatype Lane = Lane(now: int, disk: Disk, lock: Lock, procs: Procs, nextGen: nat, codes: map<nat, nat>)

  /**
   The three kills the protocol does not survive: of a dispatcher between its worker's spawn and the pid
   write, of a process between its first file removal and the removal of meta, and of the middle child
   between its spawn of the worker and its report of the worker's pid.
   */
  datatype Faults = Faults(gapKill: bool, tornRemoval: bool, lostReport: bool)

  datatype WorkerAct = Load | OpenFails | Start | NoCodex(rc: nat) | Reap | Rename | Sweep | RecordExit | Exit | Kill

  datatype CodexAct = Append(log: Log) | Write(text: string) | Quit(rc: nat)

  datatype DispatchAct =
    | Check
    | Confirm
    | Stage
    | Remove
    | WriteCmd(written: bool)
    | Publish
    | ImageFails
    | Spawn(p: nat)
    | SpawnFails
    | RecordStart
    | RecordPid
    | PollOnce

  datatype PruneAct = ScanMore | Delete(file: File) | Done

  datatype ReaderAct = Lock(watch: bool) | ReadMeta | PollMore | Leave

  datatype Step =
    | Advance(to: int)
    | OsStart(p: nat)
    | OsExit(p: nat)
    | ByWorker(g: nat, work: WorkerAct)
    | ByCodex(c: nat, run: CodexAct)
    | LockDispatch(foreground: bool)
    | LockPrune
    | ByDispatcher(dispatch: DispatchAct)
    | SpawnUnreported(p: nat)
    | ByPruner(prune: PruneAct)
    | OwnerKill
    | ByReader(a: nat, read: ReaderAct)

  // ----- what a process reads

  predicate Unfinished(w: Worker) {
    !w.pc.Finished? && !w.pc.Killed?
  }

  predicate Up(w: Worker) {
    Unfinished(w) || (w.pc.Finished? && w.pc.up)
  }

  /** kill(pid, 0), and a recorded start time that has not moved. */
  predicate PidAlive(d: Disk, procs: Procs) {
    d.pid.Some? && d.pid.value in procs.os && (d.started.None? || d.started.value == procs.os[d.pid.value])
  }

  predicate Recent(d: Disk, now: int) {
    d.meta.Some? && now - d.meta.value.published < BUSY_WINDOW
  }

  predicate Expired(d: Disk, now: int) {
    d.meta.Some? && now - d.meta.value.published > REGISTER_GRACE
  }

  predicate IsGen(d: Disk, g: nat) {
    d.meta.Some? && d.meta.value.gen == g
  }

  function GenOf(d: Disk): Option<nat> {
    if d.meta.Some? then Some(d.meta.value.gen) else None
  }

  predicate ReplyWhole(d: Disk, g: Option<nat>) {
    g.Some? && g.value in d.replies && d.replies[g.value] != ""
  }

  function LogOf(d: Disk, g: Option<nat>): Log {
    if g.Some? && g.value in d.logs then d.logs[g.value] else Log(false, false)
  }

  function StatusText(status: Option<nat>): string {
    if status.Some? then Itoa(status.value) else ""
  }

  /**
   A classification by a reader that saw generation `g` (if any), a live or dead pid, and a status, in
   that order, and reads the rest now.
   */
  function Observed(g: Option<nat>, alive: bool, status: Option<nat>, d: Disk, now: int): View {
    View(g.Some?, StatusText(status), d.pid.Some?, alive,
         ReplyWhole(d, g), LogOf(d, g).started, LogOf(d, g).completed, Expired(d, now))
  }

  /** What `classify` makes of the lane when nothing moves between its reads. */
  function VerdictOf(s: Lane): Verdict {
    Classify(Observed(GenOf(s.disk), PidAlive(s.disk, s.procs), s.disk.status, s.disk, s.now))
  }

  // ----- what a process does

  /** The stale files in the order askMode removes them. */
  function Stale(k: nat): File
    requires k < 5
  {
    [StatusFile, PidFile, StartedFile, MetaFile, CmdFile][k]
  }

  function Removed(d: Disk, file: File): Disk {
    match file
    case StatusFile => d.(status := None)
    case PidFile => d.(pid := None)
    case StartedFile => d.(started := None)
    case MetaFile => d.(meta := None)
    case CmdFile => d.(cmd := None)
    case ReplyFile(g) => d.(replies := d.replies - {g})
    case TempFile(g) => d.(temps := d.temps - {g})
    case LogFile(g) => d.(logs := d.logs - {g})
  }

  predicate Empty(d: Disk) {
    d.status.None? && d.pid.None? && d.started.None? && d.meta.None? && d.cmd.None?
  }

  /** The ghost record of a status write: it counts for the generation whose meta it lands beside. */
  function Recorded(codes: map<nat, nat>, d: Disk, code: nat): map<nat, nat> {
    if d.meta.Some? then codes[d.meta.value.gen := code] else codes
  }

  /** The code pollStatus settles a lane with once its worker is gone. */
  function Recovered(d: Disk): nat {
    if d.pid.None? then WORKER_LOST else if ReplyWhole(d, GenOf(d)) then 0 else WORKER_LOST
  }

  /** One step of pollStatus; no successor means that the process exited. */
  function PollNext(p: Poll, d: Disk, alive: bool, now: int): Option<Poll> {
    match p.pc
    case Verify => Some(p.(pc := if IsGen(d, p.gen) then Look else Reused))
    case Look => Some(p.(pc := if d.status.Some? then Report else Probe))
    case Probe =>
      if d.pid.None? then Some(p.(pc := if Expired(d, now) then Record(WORKER_LOST) else Verify))
      else if alive then Some(Poll(p.gen, Verify, 0, p.since + 1))
      else if p.grace + 1 >= GRACE_POLLS then
        Some(Poll(p.gen, Record(if ReplyWhole(d, GenOf(d)) then 0 else WORKER_LOST), p.grace + 1, p.since + 1))
      else Some(Poll(p.gen, Verify, p.grace + 1, p.since + 1))
    case Record(code) => if code == 0 then Some(p.(pc := Verify)) else None
    case Report => if IsGen(d, p.gen) then None else Some(p.(pc := Reused))
    case Reused => None
  }

  /** The only step of pollStatus that writes. */
  function PollDisk(p: Poll, d: Disk): Disk {
    if p.pc.Record? then d.(status := Some(p.pc.code)) else d
  }

  function PollCodes(p: Poll, d: Disk, codes: map<nat, nat>): map<nat, nat> {
    if p.pc.Record? then Recorded(codes, d, p.pc.code) else codes
  }

  /** A kill restarts every poller's ghost probe count. */
  function ResetReader(r: Reader): Reader {
    if r.Awaiting? then Awaiting(r.poll.(since := 0)) else r
  }

  function ResetSince(lock: Lock): Lock {
    match lock
    case Shared(holders) => Shared(map a | a in holders :: ResetReader(holders[a]))
    case Exclusive(Dispatcher(fg, Polling(p))) => Exclusive(Dispatcher(fg, Polling(p.(since := 0))))
    case Exclusive(_) => lock
  }

  const FREE := Shared(map[])

  predicate Dispatching(lock: Lock) {
    lock.Exclusive? && lock.owner.Dispatcher?
  }

  predicate Pruning(lock: Lock) {
    lock.Exclusive? && lock.owner.Pruner?
  }

  predicate Holds(lock: Lock, a: nat) {
    lock.Shared? && a in lock.holders
  }

  /** Some stale file is gone while meta may still be there. */
  predicate MidRemoval(lock: Lock) {
    || (Dispatching(lock) && lock.owner.pc.Resetting? && lock.owner.pc.removed > 0)
    || (Pruning(lock) && lock.owner.scan.Deleting?)
  }

  /** A worker runs that the lane does not name yet. */
  predicate InHandoff(lock: Lock) {
    Dispatching(lock) && (lock.owner.pc.Spawned? || lock.owner.pc.Registered?)
  }

  /** Every worker that was spawned is named by its lane before the lane can be let go. */
  predicate Reported(f: Faults) {
    !f.gapKill && !f.lostReport
  }

  predicate KillAllowed(f: Faults, lock: Lock, d: Disk) {
    (InHandoff(lock) ==> f.gapKill) && (MidRemoval(lock) && d.meta.Some? ==> f.tornRemoval)
  }

  // ----- the worker

  predicate WorkerCan(s: Lane, g: nat, work: WorkerAct) {
    g in s.procs.workers &&
    var pc := s.procs.workers[g].pc;
    match work
    case Load => pc.Fresh?
    case OpenFails => pc.Loaded?
    case Start => pc.Loaded?
    case NoCodex(rc) => pc.Loaded? && (rc == 126 || rc == 127)
    case Reap => pc.Waiting? && pc.c in s.procs.codex && s.procs.codex[pc.c].Exited?
    case Rename => pc.Reaped?
    case Sweep => pc.Renamed?
    case RecordExit => pc.Ending?
    case Exit => pc.Finished? && pc.up
    case Kill => Unfinished(s.procs.workers[g])
  }

  function WorkerNext(s: Lane, g: nat, work: WorkerAct): WorkerPc
    requires WorkerCan(s, g, work)
  {
    var pc := s.procs.workers[g].pc;
    match work
    case Load => if s.disk.cmd.Some? then Loaded(s.disk.cmd.value) else Ending(SPAWN_FAILED)
    case OpenFails => Renamed(pc.c, SPAWN_FAILED)
    case Start => Waiting(pc.c)
    case NoCodex(rc) => Reaped(pc.c, rc)
    case Reap => Reaped(pc.c, s.procs.codex[pc.c].rc)
    case Rename => Renamed(pc.c, pc.rc)
    case Sweep => Ending(pc.rc)
    case RecordExit => Finished(true)
    case Exit => Finished(false)
    case Kill => Killed
  }

  function WorkerDisk(s: Lane, g: nat, work: WorkerAct): Disk
    requires WorkerCan(s, g, work)
  {
    var d := s.disk;
    var pc := s.procs.workers[g].pc;
    match work
    case Start => d.(logs := d.logs[pc.c := Log(false, false)])
    case NoCodex(_) => d.(logs := d.logs[pc.c := Log(false, false)])
    case Rename =>
      if pc.rc == 0 && pc.c in d.temps && d.temps[pc.c] != "" then
        d.(replies := d.replies[pc.c := d.temps[pc.c]], temps := d.temps - {pc.c})
      else d
    case Sweep => d.(temps := d.temps - {pc.c})
    case RecordExit => d.(status := Some(pc.rc))
    case _ => d
  }

  function WorkerDo(s: Lane, g: nat, work: WorkerAct): Lane
    requires WorkerCan(s, g, work)
  {
    var w := s.procs.workers[g];
    Lane(
      s.now,
      WorkerDisk(s, g, work),
      if work.Kill? then ResetSince(s.lock) else s.lock,
      Procs(
        s.procs.workers[g := w.(pc := WorkerNext(s, g, work))],
        if work.Start? then s.procs.codex[w.pc.c := Active] else s.procs.codex,
        if work.Exit? || work.Kill? then s.procs.os - {w.pid} else s.procs.os,
        s.procs.nextStart),
      s.nextGen,
      if work.RecordExit? then Recorded(s.codes, s.disk, w.pc.rc) else s.codes)
  }

  // ----- codex

  predicate CodexCan(s: Lane, c: nat, run: CodexAct) {
    c in s.procs.codex && s.procs.codex[c].Active? && (run.Append? ==> c in s.disk.logs)
  }

  function CodexDo(s: Lane, c: nat, run: CodexAct): Lane
    requires CodexCan(s, c, run)
  {
    match run
    case Append(log) =>
      var was := s.disk.logs[c];
      s.(disk := s.disk.(logs := s.disk.logs[c := Log(was.started || log.started, was.completed || log.completed)]))
    case Write(text) => s.(disk := s.disk.(temps := s.disk.temps[c := text]))
    case Quit(rc) =>
      s.(procs := s.procs.(codex := s.procs.codex[c := Exited(rc, if c in s.disk.temps then s.disk.temps[c] else "")]))
  }

  // ----- the dispatcher

  predicate DispatchCan(s: Lane, dispatch: DispatchAct) {
    Dispatching(s.lock) &&
    var pc := s.lock.owner.pc;
    match dispatch
    case Check => pc.Checking?
    case Confirm => pc.Confirming?
    case Stage => pc.Staging?
    case Remove => pc.Resetting?
    case WriteCmd(_) => pc.Writing?
    case Publish => pc.Publishing?
    case ImageFails => pc.Published?
    case Spawn(p) => pc.Published? && p !in s.procs.os
    case SpawnFails => pc.Published?
    case RecordStart => pc.Spawned? && pc.g in s.procs.workers
    case RecordPid => pc.Registered? && pc.g in s.procs.workers
    case PollOnce => pc.Polling?
  }

  /** No successor means that the dispatcher exited and released the lock. */
  function DispatchNext(s: Lane, dispatch: DispatchAct): Option<DispatchPc>
    requires DispatchCan(s, dispatch)
  {
    var pc := s.lock.owner.pc;
    match dispatch
    case Check => Some(if s.disk.meta.Some? && s.disk.status.None? then Confirming(Recent(s.disk, s.now)) else Staging)
    case Confirm => if PidAlive(s.disk, s.procs) || pc.recent then None else Some(Staging)
    case Stage => Some(Resetting(s.nextGen, 0))
    case Remove => Some(if pc.removed < 5 then Resetting(pc.g, pc.removed + 1) else Writing(pc.g))
    case WriteCmd(_) => Some(Publishing(pc.g))
    case Publish => Some(Published(pc.g))
    case ImageFails => None
    case Spawn(_) => Some(Spawned(pc.g))
    case SpawnFails => AfterDispatch(s.lock.owner.foreground, pc.g)
    case RecordStart => Some(Registered(pc.g))
    case RecordPid => AfterDispatch(s.lock.owner.foreground, pc.g)
    case PollOnce =>
      var next := PollNext(pc.poll, s.disk, PidAlive(s.disk, s.procs), s.now);
      if next.Some? then Some(Polling(next.value)) else None
  }

  /** An asynchronous dispatch exits after its spawn; a foreground one polls, still holding the lock. */
  function AfterDispatch(foreground: bool, g: nat): Option<DispatchPc> {
    if foreground then Some(Polling(Poll(g, Verify, 0, 0))) else None
  }

  function DispatchDisk(s: Lane, dispatch: DispatchAct): Disk
    requires DispatchCan(s, dispatch)
  {
    var d := s.disk;
    var pc := s.lock.owner.pc;
    match dispatch
    case Stage =>
      d.(replies := d.replies[s.nextGen := ""], temps := if d.meta.Some? then d.temps - {d.meta.value.gen} else d.temps)
    case Remove => if pc.removed < 5 then Removed(d, Stale(pc.removed)) else d
    case WriteCmd(written) => d.(cmd := if written then Some(pc.g) else None)
    case Publish => d.(meta := Some(Meta(pc.g, s.now)))
    case ImageFails => d.(status := Some(SPAWN_FAILED))
    case SpawnFails => d.(status := Some(SPAWN_FAILED))
    case RecordStart => d.(started := Some(s.procs.workers[pc.g].start))
    case RecordPid => d.(pid := Some(s.procs.workers[pc.g].pid))
    case PollOnce => PollDisk(pc.poll, d)
    case _ => d
  }

  function DispatchCodes(s: Lane, dispatch: DispatchAct): map<nat, nat>
    requires DispatchCan(s, dispatch)
  {
    if dispatch.ImageFails? || dispatch.SpawnFails? then Recorded(s.codes, s.disk, SPAWN_FAILED)
    else if dispatch.PollOnce? then PollCodes(s.lock.owner.pc.poll, s.disk, s.codes)
    else s.codes
  }

  function DispatchDo(s: Lane, dispatch: DispatchAct): Lane
    requires DispatchCan(s, dispatch)
  {
    var next := DispatchNext(s, dispatch);
    Lane(
      s.now,
      DispatchDisk(s, dispatch),
      if next.Some? then Exclusive(Dispatcher(s.lock.owner.foreground, next.value)) else FREE,
      if dispatch.Spawn? then
        Procs(s.procs.workers[s.lock.owner.pc.g := Worker(dispatch.p, s.procs.nextStart, Fresh)],
              s.procs.codex, s.procs.os[dispatch.p := s.procs.nextStart], s.procs.nextStart + 1)
      else s.procs,
      if dispatch.Stage? then s.nextGen + 1 else s.nextGen,
      DispatchCodes(s, dispatch))
  }

  /** The worker runs, but the dispatcher reads no pid and records a failed spawn. */
  function SpawnUnreportedDo(s: Lane, p: nat): Lane
    requires DispatchCan(s, Spawn(p))
  {
    var spawned := DispatchDo(s, Spawn(p));
    DispatchDo(s, SpawnFails).(procs := spawned.procs)
  }

  // ----- the pruner

  predicate PruneCan(s: Lane, prune: PruneAct) {
    Pruning(s.lock) &&
    match prune
    case ScanMore => !s.lock.owner.scan.Deleting?
    case Delete(_) => s.lock.owner.scan.Deleting?
    case Done => s.lock.owner.scan.Deleting? && Empty(s.disk)
  }

  predicate MayDelete(s: Lane, g: Option<nat>, alive: bool, status: Option<nat>) {
    Terminal(Classify(Observed(g, alive, status, s.disk, s.now)))
  }

  /** No successor means that the pruner left the lane alone. */
  function PruneNext(s: Lane, scan: PrunePc): Option<PrunePc>
    requires !scan.Deleting?
  {
    match scan
    case Scan => Some(ScanStatus(GenOf(s.disk), PidAlive(s.disk, s.procs)))
    case ScanStatus(g, alive) => Some(ScanRest(g, alive, s.disk.status))
    case ScanRest(g, alive, status) => if MayDelete(s, g, alive, status) then Some(Deleting) else None
  }

  function PruneDo(s: Lane, prune: PruneAct): Lane
    requires PruneCan(s, prune)
  {
    match prune
    case ScanMore =>
      var next := PruneNext(s, s.lock.owner.scan);
      s.(lock := if next.Some? then Exclusive(Pruner(next.value)) else FREE)
    case Delete(file) => s.(disk := Removed(s.disk, file))
    case Done => s.(lock := FREE)
  }

  // ----- awaiters and watchers

  predicate ReaderCan(s: Lane, a: nat, read: ReaderAct) {
    s.lock.Shared? &&
    match read
    case Lock(_) => a !in s.lock.holders
    case ReadMeta => a in s.lock.holders && s.lock.holders[a].Opening?
    case PollMore => a in s.lock.holders && s.lock.holders[a].Awaiting?
    case Leave => a in s.lock.holders
  }

  function ReaderNext(s: Lane, a: nat, read: ReaderAct): Option<Reader>
    requires ReaderCan(s, a, read)
  {
    match read
    case Lock(watch) => Some(Opening(watch))
    case ReadMeta =>
      if s.lock.holders[a].watch then Some(Watching(GenOf(s.disk)))
      else if s.disk.meta.Some? then Some(Awaiting(Poll(s.disk.meta.value.gen, Verify, 0, 0)))
      else None
    case PollMore =>
      var next := PollNext(s.lock.holders[a].poll, s.disk, PidAlive(s.disk, s.procs), s.now);
      if next.Some? then Some(Awaiting(next.value)) else None
    case Leave => None
  }

  function ReaderDo(s: Lane, a: nat, read: ReaderAct): Lane
    requires ReaderCan(s, a, read)
  {
    var next := ReaderNext(s, a, read);
    Lane(
      s.now,
      if read.PollMore? then PollDisk(s.lock.holders[a].poll, s.disk) else s.disk,
      Shared(if next.Some? then s.lock.holders[a := next.value] else s.lock.holders - {a}),
      s.procs,
      s.nextGen,
      if read.PollMore? then PollCodes(s.lock.holders[a].poll, s.disk, s.codes) else s.codes)
  }

  // ----- steps and runs

  predicate Enabled(f: Faults, s: Lane, step: Step) {
    match step
    case Advance(to) => s.now <= to
    case OsStart(p) => p !in s.procs.os
    case OsExit(p) =>
      p in s.procs.os && forall g :: g in s.procs.workers && Up(s.procs.workers[g]) ==> s.procs.workers[g].pid != p
    case ByWorker(g, work) => WorkerCan(s, g, work)
    case ByCodex(c, run) => CodexCan(s, c, run)
    case LockDispatch(_) => s.lock == FREE
    case LockPrune => s.lock == FREE
    case ByDispatcher(dispatch) => DispatchCan(s, dispatch)
    case SpawnUnreported(p) => f.lostReport && DispatchCan(s, Spawn(p))
    case ByPruner(prune) => PruneCan(s, prune)
    case OwnerKill => s.lock.Exclusive? && KillAllowed(f, s.lock, s.disk)
    case ByReader(a, read) => ReaderCan(s, a, read)
  }

  function Do(f: Faults, s: Lane, step: Step): Lane
    requires Enabled(f, s, step)
  {
    match step
    case Advance(to) => s.(now := to)
    case OsStart(p) => s.(procs := s.procs.(os := s.procs.os[p := s.procs.nextStart], nextStart := s.procs.nextStart + 1))
    case OsExit(p) => s.(procs := s.procs.(os := s.procs.os - {p}))
    case ByWorker(g, work) => WorkerDo(s, g, work)
    case ByCodex(c, run) => CodexDo(s, c, run)
    case LockDispatch(fg) => s.(lock := Exclusive(Dispatcher(fg, Checking)))
    case LockPrune => s.(lock := Exclusive(Pruner(Scan)))
    case ByDispatcher(dispatch) => DispatchDo(s, dispatch)
    case SpawnUnreported(p) => SpawnUnreportedDo(s, p)
    case ByPruner(prune) => PruneDo(s, prune)
    case OwnerKill => s.(lock := FREE)
    case ByReader(a, read) => ReaderDo(s, a, read)
  }

  predicate Init(s: Lane) {
    && s.disk == Disk(None, None, None, None, None, map[], map[], map[])
    && s.lock == FREE && s.nextGen == 0 && s.codes == map[]
    && s.procs.workers == map[] && s.procs.codex == map[]
    && forall p :: p in s.procs.os ==> s.procs.os[p] < s.procs.nextStart
  }

  ghost predicate Next(f: Faults, s: Lane, s': Lane) {
    exists step :: Enabled(f, s, step) && s' == Do(f, s, step)
  }

  /** A run from an empty lane under the given faults. */
  ghost predicate Run(f: Faults, r: seq<Lane>) {
    && r != [] && Init(r[0])
    && forall i :: 0 < i < |r| ==> Next(f, r[i - 1], r[i])
  }
}
