/**
 What the reclaimer reads and does, as a trace of calls with their answers, and when each call that
 changes something is justified by what came before it. Orca, git, GitHub, the Sprites and the pause file
 may answer anything, and may answer the same question differently later.
 */
module ReclaimTrace {
  import opened Options

  type Env = Option<string>

  datatype Worker = Worker(dispatch: string, status: string, terminalState: string, ownership: string, retained: Option<string>,
                           terminal: string, workspace: Option<string>, worktree: Option<string>, environment: Env, hostGone: bool)

  predicate Settled(w: Worker) {
    w.status == "completed" || w.status == "failed"
  }

  datatype Terminal = Terminal(handle: string, agent: bool, title: string, lastOutputMs: int, pane: string)

  const QUIET_MS := 10 * 60 * 1000

  function TrimSlashes(s: string): string {
    if s != "" && s[|s| - 1] == '/' then TrimSlashes(s[..|s| - 1]) else s
  }

  function AfterSlash(s: string): string {
    if s == "" || s[|s| - 1] == '/' then "" else AfterSlash(s[..|s| - 1]) + [s[|s| - 1]]
  }

  /** The last part of a path. */
  function Base(s: string): string {
    AfterSlash(TrimSlashes(s))
  }

  /** A shell at its prompt in this worktree, quiet for ten minutes. */
  predicate IdleShell(t: Terminal, worktree: string, nowMs: int) {
    !t.agent && (Base(t.title) == "" || Base(t.title) == Base(worktree)) && nowMs - t.lastOutputMs > QUIET_MS
  }

  lemma IdleExactly(t: Terminal, worktree: string, nowMs: int)
    ensures IdleShell(t, worktree, nowMs) <==>
      !t.agent && (Base(t.title) == "" || Base(t.title) == Base(worktree)) && nowMs > t.lastOutputMs + 600_000
  {
  }

  /** The last part of a path is what stands between its last slash and those at its end. */
  lemma BaseMeans(dir: string, name: string, slashes: string)
    requires (dir == "" || dir[|dir| - 1] == '/') && (forall i :: 0 <= i < |name| ==> name[i] != '/') && (forall i :: 0 <= i < |slashes| ==> slashes[i] == '/')
    requires name == "" ==> dir == ""
    ensures Base(dir + name + slashes) == name
  {
    TrimmedIs(dir + name, slashes);
    AfterSlashIs(dir, name);
  }

  lemma {:induction false} TrimmedIs(s: string, slashes: string)
    requires (s == "" || s[|s| - 1] != '/') && forall i :: 0 <= i < |slashes| ==> slashes[i] == '/'
    ensures TrimSlashes(s + slashes) == s
    decreases |slashes|
  {
    if slashes == "" {
      assert s + slashes == s;
    } else {
      assert (s + slashes)[..|s + slashes| - 1] == s + slashes[..|slashes| - 1];
      TrimmedIs(s, slashes[..|slashes| - 1]);
    }
  }

  lemma {:induction false} AfterSlashIs(dir: string, name: string)
    requires (dir == "" || dir[|dir| - 1] == '/') && forall i :: 0 <= i < |name| ==> name[i] != '/'
    ensures AfterSlash(dir + name) == name
    decreases |name|
  {
    if name == "" {
      assert dir + name == dir;
    } else {
      assert (dir + name)[..|dir + name| - 1] == dir + name[..|name| - 1];
      AfterSlashIs(dir, name[..|name| - 1]);
      assert name == name[..|name| - 1] + [name[|name| - 1]];
    }
  }

  datatype Checkout = Checkout(path: string, dirty: bool, head: string, onTrunk: bool, repository: string, environment: Env, offOrigin: nat)
  datatype Sprite = Sprite(workspace: string, environment: string)

  datatype CheckoutAnswer = Found(checkout: Checkout) | Missing | Unreadable
  datatype ListAnswer = Listed(terminals: seq<Terminal>) | Unlisted | ListError
  datatype Presence = Connected | Disconnected | Stale | RuntimeDown | OtherError
  datatype Lookup = Yes | No | Refused
  datatype Where = Branches | Landed
  datatype StopAnswer = Fenced | HostDown | StopError | State(detail: string)
  datatype RemoveAnswer = Removed | Unregistered | RemoveError

  datatype Event =
    | PauseRead(held: bool)
    | WorkersRead(workers: seq<Worker>)
    | SpritesRead(sprites: map<(string, string), Sprite>)
    | IdleRead(terminal: string, env: Env, idle: Option<bool>)
    | PresenceRead(terminal: string, env: Env, presence: Presence)
    | TerminalsRead(path: string, env: Env, list: ListAnswer)
    | CheckoutRead(path: string, env: Env, found: CheckoutAnswer)
    | SpriteRead(sprite: Sprite, found: CheckoutAnswer)
    | HeadRead(repository: string, head: string, place: Where, answer: Lookup)
    | RegisteredRead(path: string, registered: bool)
    | HolderRead(path: string, panes: set<string>, busy: bool)
    | ClockRead(ms: int)
    | DirectoryRead(path: string, there: bool)
    // what changes something
    | StopOp(dispatch: string, stopped: StopAnswer)
    | AbandonOp(dispatch: string, stopped: StopAnswer)
    | ReleaseOp(dispatch: string, released: bool)
    | CloseOp(terminal: string, env: Env, refused: bool)
    | RemoveOp(path: string, env: Env, removed: RemoveAnswer)
    | GitRemoveOp(path: string, refused: bool)
    | DestroyOp(sprite: Sprite, refused: bool)
    | ForgetOp(environment: string, refused: bool)

  predicate IsOp(e: Event) {
    e.StopOp? || e.AbandonOp? || e.ReleaseOp? || e.CloseOp? || e.RemoveOp? || e.GitRemoveOp? || e.DestroyOp? || e.ForgetOp?
  }

  // ----- who is still at work

  /** The workers as last listed. */
  function LastWorkers(tr: seq<Event>): seq<Worker> {
    if tr == [] then []
    else if tr[|tr| - 1].WorkersRead? then tr[|tr| - 1].workers
    else LastWorkers(tr[..|tr| - 1])
  }

  /** The dispatches this run has stopped or abandoned. */
  function EndedIn(tr: seq<Event>): set<string> {
    if tr == [] then {} else EndedIn(tr[..|tr| - 1]) + EndedBy(tr[|tr| - 1])
  }

  function EndedBy(e: Event): set<string> {
    if (e.StopOp? || e.AbandonOp?) && e.stopped.State? then {e.dispatch} else {}
  }

  /** A dispatch has ended once a stop or an abandonment of it was answered with a state. */
  lemma {:induction false} EndedExactly(tr: seq<Event>, d: string)
    ensures d in EndedIn(tr) <==> exists i :: 0 <= i < |tr| && EndsAt(tr[i], d)
  {
    if tr != [] {
      var last := |tr| - 1;
      EndedExactly(tr[..last], d);
      assert forall i :: 0 <= i < last ==> tr[..last][i] == tr[i];
    }
  }

  predicate EndsAt(e: Event, d: string) {
    (e.StopOp? && e.dispatch == d && e.stopped.State?) || (e.AbandonOp? && e.dispatch == d && e.stopped.State?)
  }

  /** The workers that count are those of the last listing. */
  lemma {:induction false} LastListed(tr: seq<Event>, workers: seq<Worker>, rest: seq<Event>)
    requires forall i :: 0 <= i < |rest| ==> !rest[i].WorkersRead?
    ensures LastWorkers(tr + [WorkersRead(workers)] + rest) == workers
  {
    var whole := tr + [WorkersRead(workers)] + rest;
    if rest != [] {
      var last := |rest| - 1;
      assert whole[|whole| - 1] == rest[last] && whole[..|whole| - 1] == tr + [WorkersRead(workers)] + rest[..last];
      LastListed(tr, workers, rest[..last]);
    }
  }

  function SettledSet(workers: seq<Worker>, ended: set<string>): set<string> {
    set w | w in workers && (Settled(w) || w.dispatch in ended) :: w.dispatch
  }

  /** A dispatch is done once a worker of it completed or failed, or this run ended it. */
  lemma SettledExactly(workers: seq<Worker>, ended: set<string>, d: string)
    ensures d in SettledSet(workers, ended) <==>
      exists w :: w in workers && w.dispatch == d && (w.status == "completed" || w.status == "failed" || d in ended)
  {
  }

  /** What is in use: the terminals, the worktrees and the workspaces of workers whose dispatch is not done. */
  lemma LiveExactly(workers: seq<Worker>, ended: set<string>)
    ensures forall t :: t in LiveTerminals(workers, ended) <==>
      t != "" && exists w :: w in workers && w.dispatch !in SettledSet(workers, ended) && w.terminal == t
    ensures forall env, tree :: (env, tree) in LiveWorktrees(workers, ended) <==>
      exists w :: w in workers && w.dispatch !in SettledSet(workers, ended) && w.environment == env && w.worktree == tree
    ensures forall s :: s in LiveWorkspaces(workers, ended) <==>
      exists w :: w in workers && w.dispatch !in SettledSet(workers, ended) && w.workspace == s
  {
    hide SettledSet;
  }

  /** A listed dispatch that is neither settled nor ended. */
  predicate Unsettled(workers: seq<Worker>, ended: set<string>, w: Worker) {
    w in workers && w.dispatch !in SettledSet(workers, ended)
  }

  function LiveTerminals(workers: seq<Worker>, ended: set<string>): set<string> {
    set w | w in workers && Unsettled(workers, ended, w) && w.terminal != "" :: w.terminal
  }

  function LiveWorktrees(workers: seq<Worker>, ended: set<string>): set<(Env, Option<string>)> {
    set w | w in workers && Unsettled(workers, ended, w) :: (w.environment, w.worktree)
  }

  function LiveWorkspaces(workers: seq<Worker>, ended: set<string>): set<Option<string>> {
    set w | w in workers && Unsettled(workers, ended, w) :: w.workspace
  }

  // ----- evidence

  /** A terminal that this run is closing, because its dispatch was ended or because it is idle. */
  datatype Closing = Closing(terminal: string, ending: bool, dispatch: string, env: Env)

  predicate HasWorker(workers: seq<Worker>, dispatch: string, terminal: string) {
    exists w :: w in workers && w.dispatch == dispatch && w.terminal == terminal
  }

  predicate MayClose(tr: seq<Event>, workers: seq<Worker>, ended: set<string>, c: Closing) {
    && HasWorker(workers, c.dispatch, c.terminal)
    && if c.ending then c.dispatch in ended
       else c.terminal !in LiveTerminals(workers, ended) && IdleRead(c.terminal, c.env, Some(true)) in tr
  }

  /** unsaved() found nothing: a clean tree whose head is on the trunk, on a branch of the origin, or landed. */
  predicate NothingUnsaved(tr: seq<Event>, c: Checkout) {
    && !c.dirty && c.offOrigin == 0
    && (c.onTrunk || HeadRead(c.repository, c.head, Branches, Yes) in tr || HeadRead(c.repository, c.head, Landed, Yes) in tr)
  }

  ghost predicate Saved(tr: seq<Event>, path: string, env: Env) {
    exists c :: CheckoutRead(path, env, Found(c)) in tr && NothingUnsaved(tr, c)
  }

  /** A planned removal: the terminals seen in the worktree, and those of them that will be stopped. */
  datatype Removal = Removal(path: string, env: Env, shells: set<string>, agents: seq<Closing>)

  function Handles(terminals: seq<Terminal>): set<string> {
    set t | t in terminals :: t.handle
  }

  function Targets(agents: seq<Closing>): set<string> {
    set a | a in agents :: a.terminal
  }

  predicate ListsAs(e: Event, path: string, env: Env, terminals: seq<Terminal>) {
    e == TerminalsRead(path, env, Listed(terminals)) || (e == TerminalsRead(path, env, Unlisted) && terminals == [])
  }

  /** The plan rests on a saved tree, terminals all idle or closing, and closings each justified. */
  ghost predicate Planned(tr: seq<Event>, workers: seq<Worker>, ended: set<string>, plan: Removal) {
    && (plan.env, Some(plan.path)) !in LiveWorktrees(workers, ended)
    && Saved(tr, plan.path, plan.env)
    && (forall a :: a in plan.agents ==> MayClose(tr, workers, ended, a))
    && exists e, first, ms :: SeenIdle(tr, plan, e, first, ms)
  }

  predicate SeenIdle(tr: seq<Event>, plan: Removal, e: Event, first: seq<Terminal>, ms: int) {
    && e in tr && ListsAs(e, plan.path, plan.env, first) && ClockRead(ms) in tr && plan.shells == Handles(first)
    && forall t :: t in first ==> t.handle in Targets(plan.agents) || IdleShell(t, plan.path, ms)
  }

  predicate NoOpFrom(tr: seq<Event>, k: nat) {
    forall m :: k <= m < |tr| ==> !IsOp(tr[m])
  }

  predicate SeenSince(tr: seq<Event>, k: nat, e: Event) {
    k <= |tr| && e in tr[k..]
  }

  /** At position `k` the terminals were read again: all planned, idle or stopping, and nothing done since. */
  ghost predicate ReadAgain(tr: seq<Event>, plan: Removal, k: nat) {
    k < |tr| && exists now :: ListsAs(tr[k], plan.path, plan.env, now) && AllQuiet(tr, plan, k, now)
  }

  ghost predicate AllQuiet(tr: seq<Event>, plan: Removal, k: nat, now: seq<Terminal>) {
    && NoOpFrom(tr, k)
    && (forall t :: t in now ==> t.handle in plan.shells && (t.handle in Targets(plan.agents) || IdleSince(tr, k, t, plan.path)))
    && (forall a :: a in plan.agents && !a.ending ==> NotBusySince(tr, k, a))
    && (plan.env.None? ==> SeenSince(tr, k, HolderRead(plan.path, Panes(now, Targets(plan.agents)), false)))
  }

  function Panes(terminals: seq<Terminal>, stopping: set<string>): set<string> {
    set t | t in terminals && t.handle in stopping :: t.pane
  }

  ghost predicate IdleSince(tr: seq<Event>, k: nat, t: Terminal, path: string) {
    exists ms :: SeenSince(tr, k, ClockRead(ms)) && IdleShell(t, path, ms)
  }

  ghost predicate NotBusySince(tr: seq<Event>, k: nat, a: Closing) {
    exists idle :: SeenSince(tr, k, IdleRead(a.terminal, a.env, idle)) && idle != Some(false)
  }

  // ----- when an operation is justified

  predicate JustUnpaused(tr: seq<Event>) {
    tr != [] && tr[|tr| - 1] == PauseRead(false)
  }

  ghost predicate MayRemove(tr: seq<Event>, path: string, env: Env) {
    exists plan: Removal, k: nat :: plan.path == path && plan.env == env && RemovalStands(tr, plan, k)
  }

  ghost predicate RemovalStands(tr: seq<Event>, plan: Removal, k: nat) {
    ReadAgain(tr, plan, k) && Planned(tr[..k], LastWorkers(tr), EndedIn(tr), plan)
  }

  /** A worktree whose directory is gone but which Orca still lists. */
  predicate MayDrop(tr: seq<Event>, path: string, env: Env) {
    && env == None && (None, Some(path)) !in LiveWorktrees(LastWorkers(tr), EndedIn(tr))
    && CheckoutRead(path, None, Missing) in tr && RegisteredRead(path, true) in tr
  }

  ghost predicate CloseStands(tr: seq<Event>, terminal: string, env: Env) {
    exists c: Closing :: c.terminal == terminal && c.env == env && MayClose(tr, LastWorkers(tr), EndedIn(tr), c)
      && (!c.ending ==> |tr| > 1 && tr[|tr| - 2] == IdleRead(terminal, env, Some(true)) && IdleRead(terminal, env, Some(true)) in tr[..|tr| - 2])
  }

  ghost predicate DestroyStands(tr: seq<Event>, sprite: Sprite) {
    exists w, c :: HostedOn(tr, w, sprite) && SpriteSaved(tr, sprite, c) && SpriteQuiet(tr, w, sprite)
  }

  predicate HostedOn(tr: seq<Event>, w: Worker, sprite: Sprite) {
    && w in LastWorkers(tr) && w.dispatch in SettledSet(LastWorkers(tr), EndedIn(tr))
    && w.workspace.Some? && w.workspace !in LiveWorkspaces(LastWorkers(tr), EndedIn(tr))
    && exists e :: e in tr && Hosts(e, w, sprite)
  }

  predicate Hosts(e: Event, w: Worker, sprite: Sprite) {
    e.SpritesRead? && w.workspace.Some? && (w.workspace.value, w.terminal) in e.sprites && e.sprites[(w.workspace.value, w.terminal)] == sprite
  }

  predicate SpriteSaved(tr: seq<Event>, sprite: Sprite, c: Checkout) {
    SpriteRead(sprite, Found(c)) in tr && NothingUnsaved(tr, c)
  }

  /** The dispatch was ended, or its terminal read idle before and again right before the last pause check. */
  predicate SpriteQuiet(tr: seq<Event>, w: Worker, sprite: Sprite) {
    w.dispatch in EndedIn(tr) ||
    (|tr| > 1 && tr[|tr| - 2] == IdleRead(w.terminal, Some(sprite.environment), Some(true))
     && IdleRead(w.terminal, Some(sprite.environment), Some(true)) in tr[..|tr| - 2])
  }

  /** Everything that changes something follows from what was read before it. */
  ghost predicate OpOk(tr: seq<Event>, e: Event) {
    match e
    case StopOp(_, _) => JustUnpaused(tr)
    case AbandonOp(d, _) => tr != [] && (tr[|tr| - 1] == StopOp(d, Fenced) || tr[|tr| - 1] == StopOp(d, HostDown))
    case ReleaseOp(d, _) => JustUnpaused(tr) && d in SettledSet(LastWorkers(tr), EndedIn(tr))
    case CloseOp(t, env, _) => JustUnpaused(tr) && CloseStands(tr, t, env)
    case RemoveOp(path, env, _) => JustUnpaused(tr) && (MayRemove(tr, path, env) || MayDrop(tr, path, env))
    case GitRemoveOp(path, _) => RefusedRemoval(tr, path)
    case DestroyOp(sprite, _) => JustUnpaused(tr) && DestroyStands(tr, sprite)
    case ForgetOp(env, _) => tr != [] && tr[|tr| - 1].DestroyOp? && !tr[|tr| - 1].refused && tr[|tr| - 1].sprite.environment == env
    case _ => true
  }

  /** Orca has just refused a justified removal of a worktree it does not track, and the directory is there. */
  ghost predicate RefusedRemoval(tr: seq<Event>, path: string) {
    && |tr| > 1 && tr[|tr| - 1] == DirectoryRead(path, true) && tr[|tr| - 2] == RemoveOp(path, None, Unregistered)
    && JustUnpaused(tr[..|tr| - 2]) && MayRemove(tr[..|tr| - 2], path, None)
  }

  ghost predicate Sound(tr: seq<Event>) {
    forall i: nat :: i < |tr| ==> OpOk(tr[..i], tr[i])
  }

  lemma SoundGrows(tr: seq<Event>, e: Event)
    requires Sound(tr) && OpOk(tr, e)
    ensures Sound(tr + [e])
  {
    hide OpOk;
    var tr' := tr + [e];
    forall i: nat | i < |tr'|
      ensures OpOk(tr'[..i], tr'[i])
    {
      assert i < |tr| ==> tr'[..i] == tr[..i];
      assert i == |tr| ==> tr'[..i] == tr;
    }
  }

  predicate Reads(tr: seq<Event>, tr': seq<Event>) {
    |tr| <= |tr'| && tr'[..|tr|] == tr && NoOpFrom(tr', |tr|)
  }

  /** What was seen stays seen. */
  lemma Kept(tr: seq<Event>, tr': seq<Event>)
    requires |tr| <= |tr'| && tr'[..|tr|] == tr
    ensures forall e :: e in tr ==> e in tr'
  {
    forall e | e in tr
      ensures e in tr'
    {
      var i :| 0 <= i < |tr| && tr[i] == e;
      assert tr'[i] == e;
    }
  }
}
