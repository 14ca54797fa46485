/** What a pass's trace means for the worktrees, Sprites and terminals of an Orca Run. */
module ReclaimTheorems {
  import opened Options
  import opened ReclaimGc
  import opened ReclaimThorough
  import opened ReclaimTrace

  /** No listed worker of an unsettled dispatch was using a worktree when it was removed. */
  lemma RemovedNeverLive(tr: seq<Event>, i: nat, x: Worker)
    requires Sound(tr) && i < |tr| && (tr[i].RemoveOp? || tr[i].GitRemoveOp?)
    requires x in LastWorkers(tr[..i]) && x.worktree == Some(tr[i].path)
    requires x.environment == if tr[i].RemoveOp? then tr[i].env else None
    ensures !Unsettled(LastWorkers(tr[..i]), EndedIn(tr[..i]), x)
  {
    var prev, path, env := tr[..i], tr[i].path, if tr[i].RemoveOp? then tr[i].env else None;
    assert OpOk(prev, tr[i]);
    if tr[i].GitRemoveOp? {
      SkipTwo(prev);
      MayRemoveNotLive(prev[..|prev| - 2], path, env);
    } else if MayRemove(prev, path, env) {
      MayRemoveNotLive(prev, path, env);
    }
  }

  lemma MayRemoveNotLive(tr: seq<Event>, path: string, env: Env)
    requires MayRemove(tr, path, env)
    ensures (env, Some(path)) !in LiveWorktrees(LastWorkers(tr), EndedIn(tr))
  {
    hide ReadAgain, LiveWorktrees, LastWorkers, EndedIn, Saved, MayClose;
    var plan: Removal, k: nat :| plan.path == path && plan.env == env && RemovalStands(tr, plan, k);
  }

  /** A refused removal and a look at the directory list no workers and end no dispatch. */
  lemma SkipTwo(tr: seq<Event>)
    requires |tr| > 1 && tr[|tr| - 1].DirectoryRead? && tr[|tr| - 2].RemoveOp?
    ensures LastWorkers(tr) == LastWorkers(tr[..|tr| - 2]) && EndedIn(tr) == EndedIn(tr[..|tr| - 2])
  {
    var once := tr[..|tr| - 1];
    assert once[|once| - 1] == tr[|tr| - 2] && once[..|once| - 1] == tr[..|tr| - 2];
    assert EndedBy(tr[|tr| - 1]) == {} && EndedBy(tr[|tr| - 2]) == {};
  }

  /** A destroyed Sprite was recorded for a settled worker whose workspace nobody unsettled was listed in. */
  lemma DestroyedNeverLive(tr: seq<Event>, i: nat)
    requires Sound(tr) && i < |tr| && tr[i].DestroyOp?
    ensures exists w, e :: e in tr[..i] && Hosts(e, w, tr[i].sprite) && NobodyIn(tr[..i], w.workspace)
  {
    var prev, sprite := tr[..i], tr[i].sprite;
    assert OpOk(prev, tr[i]);
    hide SettledSet, LastWorkers, EndedIn, SpriteSaved, SpriteQuiet, Sound;
    var w, c :| HostedOn(prev, w, sprite) && SpriteSaved(prev, sprite, c) && SpriteQuiet(prev, w, sprite);
    var e :| e in prev && Hosts(e, w, sprite);
    assert NobodyIn(prev, w.workspace);
  }

  /**
   A terminal is closed only for a listed worker of it, and only if this run ended that worker's dispatch, or the
   terminal serves no unsettled worker, and read idle twice, the second time just before the last look at the pause file.
   */
  lemma ClosedNeverInUse(tr: seq<Event>, i: nat)
    requires Sound(tr) && i < |tr| && tr[i].CloseOp?
    ensures exists w :: w in LastWorkers(tr[..i]) && w.terminal == tr[i].terminal && MayLose(tr, i, w)
  {
    hide LastWorkers, EndedIn, Sound;
    OpIsOk(tr, i);
    var prev, terminal, env := tr[..i], tr[i].terminal, tr[i].env;
    assert CloseStands(prev, terminal, env);
    var c: Closing :| c.terminal == terminal && c.env == env && MayClose(prev, LastWorkers(prev), EndedIn(prev), c)
      && (!c.ending ==> |prev| > 1 && prev[|prev| - 2] == IdleRead(terminal, env, Some(true)) && IdleRead(terminal, env, Some(true)) in prev[..|prev| - 2]);
    var w :| w in LastWorkers(prev) && w.dispatch == c.dispatch && w.terminal == terminal;
    if !c.ending {
      hide HasWorker, MayClose;
      var j :| 0 <= j < |prev| - 2 && prev[..|prev| - 2][j] == IdleRead(terminal, env, Some(true));
      assert tr[j] == IdleRead(terminal, env, Some(true));
    }
    assert MayLose(tr, i, w);
  }

  predicate MayLose(tr: seq<Event>, i: nat, w: Worker)
    requires i < |tr| && tr[i].CloseOp?
  {
    var terminal, idle := tr[i].terminal, IdleRead(tr[i].terminal, tr[i].env, Some(true));
    w.dispatch in EndedIn(tr[..i]) ||
    (&& (forall x :: x in LastWorkers(tr[..i]) && x.terminal == terminal && x.terminal != "" ==> !Unsettled(LastWorkers(tr[..i]), EndedIn(tr[..i]), x))
     && IdleTwice(tr, i, idle))
  }

  predicate NobodyIn(tr: seq<Event>, workspace: Option<string>) {
    forall x :: x in LastWorkers(tr) && x.workspace == workspace ==> !Unsettled(LastWorkers(tr), EndedIn(tr), x)
  }

  /** The last look at the pause file before position `i`, at position `j`, found no pause. */
  predicate UnpausedAt(tr: seq<Event>, i: nat, j: nat) {
    j < i <= |tr| && tr[j] == PauseRead(false) && forall m :: j < m < i ==> !tr[m].PauseRead?
  }

  /** An operation that only completes another: abandoning, removing by git, forgetting an environment. */
  predicate Completes(e: Event) {
    e.AbandonOp? || e.GitRemoveOp? || e.ForgetOp?
  }

  /**
   Nothing is done after a pause was seen, however it came about: an operation comes right after a pause
   check that found none. Only the three that complete another come after that one's pause check.
   */
  lemma OnlyWhenUnpaused(tr: seq<Event>, i: nat) returns (j: nat)
    requires Sound(tr) && i < |tr| && IsOp(tr[i])
    ensures UnpausedAt(tr, i, j)
    ensures !Completes(tr[i]) ==> i == j + 1
    ensures tr[i].AbandonOp? ==> i == j + 2 && tr[j + 1].StopOp? && tr[j + 1].dispatch == tr[i].dispatch
    ensures tr[i].ForgetOp? ==> i == j + 2 && tr[j + 1].DestroyOp? && tr[j + 1].sprite.environment == tr[i].environment
    ensures tr[i].GitRemoveOp? ==> i == j + 3 && tr[j + 1] == RemoveOp(tr[i].path, None, Unregistered)
  {
    hide LastWorkers, EndedIn, SettledSet, MayRemove, MayDrop, CloseStands, DestroyStands, Sound;
    OpIsOk(tr, i);
    if tr[i].AbandonOp? || tr[i].ForgetOp? {
      OpIsOk(tr, i - 1);
      j := i - 2;
    } else if tr[i].GitRemoveOp? {
      OpIsOk(tr, i - 2);
      j := i - 3;
    } else {
      j := i - 1;
    }
  }

  lemma OpIsOk(tr: seq<Event>, i: nat)
    requires Sound(tr) && i < |tr|
    ensures OpOk(tr[..i], tr[i])
  {
  }

  /** Removing a worktree, by Orca or by git. */
  predicate Removes(e: Event) {
    e.RemoveOp? || e.GitRemoveOp?
  }

  function EnvOf(e: Event): Env
    requires Removes(e)
  {
    if e.RemoveOp? then e.env else None
  }

  /** Where Orca's own removal stands: git's comes after it and a look at the directory. */
  function RemovalAt(tr: seq<Event>, i: nat): nat
    requires i < |tr|
  {
    if tr[i].GitRemoveOp? && i >= 2 then i - 2 else i
  }

  /** A local worktree found gone. */
  predicate FoundGone(tr: seq<Event>, path: string, env: Env) {
    env == None && CheckoutRead(path, None, Missing) in tr
  }

  /** At position `k` the worktree's terminals were listed, and nothing was done between then and `i`. */
  predicate ListedJustBefore(tr: seq<Event>, i: nat, k: nat, path: string, env: Env) {
    && k < i <= |tr| && tr[k].TerminalsRead? && tr[k].path == path && tr[k].env == env
    && forall m :: k <= m < i ==> !IsOp(tr[m])
  }

  /** The plan a removal that is no drop rests on. */
  lemma RemovalPlan(tr: seq<Event>, i: nat) returns (plan: Removal, k: nat)
    requires Sound(tr) && i < |tr| && Removes(tr[i])
    requires tr[i].GitRemoveOp? || !FoundGone(tr[..i], tr[i].path, EnvOf(tr[i]))
    ensures tr[i].GitRemoveOp? ==> i >= 2 && tr[i - 2] == RemoveOp(tr[i].path, None, Unregistered)
    ensures plan.path == tr[i].path && plan.env == EnvOf(tr[i]) && RemovalStands(tr[..RemovalAt(tr, i)], plan, k)
  {
    hide LastWorkers, EndedIn, RemovalStands, Sound, LiveWorktrees;
    OpIsOk(tr, i);
    var prev, path, env := tr[..i], tr[i].path, EnvOf(tr[i]);
    if tr[i].GitRemoveOp? {
      prev := tr[..i - 2];
      assert tr[..i][..i - 2] == prev;
    }
    assert MayRemove(prev, path, env);
    plan, k :| plan.path == path && plan.env == env && RemovalStands(prev, plan, k);
  }

  /**
   A worktree is removed only if its terminals were read with nothing done since, git's removal coming after
   Orca's refusal of it; or, by Orca, if it is local and was found gone.
   */
  lemma RemovedOnFreshReading(tr: seq<Event>, i: nat)
    requires Sound(tr) && i < |tr| && Removes(tr[i])
    ensures tr[i].GitRemoveOp? ==> i >= 2 && tr[i - 2] == RemoveOp(tr[i].path, None, Unregistered)
    ensures (tr[i].RemoveOp? && FoundGone(tr[..i], tr[i].path, tr[i].env))
         || exists k :: ListedJustBefore(tr, RemovalAt(tr, i), k, tr[i].path, EnvOf(tr[i]))
  {
    hide LastWorkers, EndedIn, Planned, Sound, MayRemove;
    if tr[i].GitRemoveOp? || !FoundGone(tr[..i], tr[i].path, EnvOf(tr[i])) {
      var plan, k := RemovalPlan(tr, i);
      var n := RemovalAt(tr, i);
      assert NoOpFrom(tr[..n], k);
      forall m | k <= m < n ensures !IsOp(tr[m]) { assert tr[m] == tr[..n][m]; }
      assert ListedJustBefore(tr, n, k, tr[i].path, EnvOf(tr[i]));
    }
  }

  /** What is removed, unless Orca drops it as gone, was read as clean, with its head on the trunk or on the origin. */
  lemma RemovedWasSaved(tr: seq<Event>, i: nat)
    requires Sound(tr) && i < |tr| && Removes(tr[i])
    requires tr[i].GitRemoveOp? || !FoundGone(tr[..i], tr[i].path, EnvOf(tr[i]))
    ensures exists c: Checkout :: CheckoutRead(tr[i].path, EnvOf(tr[i]), Found(c)) in tr[..i] && ReadSafe(tr, i, c)
  {
    hide LastWorkers, EndedIn, ReadAgain, Sound, LiveWorktrees, MayRemove, MayClose, SeenIdle;
    var plan, k := RemovalPlan(tr, i);
    var n := RemovalAt(tr, i);
    ReadAgainIn(tr[..n], plan, k);
    assert tr[..n][..k] == tr[..k] && tr[..i][..k] == tr[..k];
    var c :| CheckoutRead(plan.path, plan.env, Found(c)) in tr[..k] && NothingUnsaved(tr[..k], c);
    Kept(tr[..k], tr[..i]);
    SafeRead(tr, i, c);
  }

  /** So was the checkout of a destroyed Sprite; and its worker's dispatch was ended, or its terminal read idle twice. */
  lemma DestroyedWasSaved(tr: seq<Event>, i: nat)
    requires Sound(tr) && i < |tr| && tr[i].DestroyOp?
    ensures exists c: Checkout :: SpriteRead(tr[i].sprite, Found(c)) in tr[..i] && ReadSafe(tr, i, c)
    ensures exists w :: w in LastWorkers(tr[..i]) && QuietHost(tr, i, w)
  {
    hide LastWorkers, EndedIn, Sound, Hosts, LiveWorkspaces;
    OpIsOk(tr, i);
    var prev, sprite := tr[..i], tr[i].sprite;
    var w, c :| HostedOn(prev, w, sprite) && SpriteSaved(prev, sprite, c) && SpriteQuiet(prev, w, sprite);
    SafeRead(tr, i, c);
    if w.dispatch !in EndedIn(prev) {
      var idle := IdleRead(w.terminal, Some(sprite.environment), Some(true));
      var j :| 0 <= j < i - 2 && prev[..i - 2][j] == idle;
      assert tr[j] == idle;
    }
    assert QuietHost(tr, i, w);
  }

  /** Clean, and with its head on the trunk, or found on a branch of the origin or landed before position `i`. */
  predicate ReadSafe(tr: seq<Event>, i: nat, c: Checkout)
    requires i <= |tr|
  {
    && !c.dirty && c.offOrigin == 0
    && (c.onTrunk || exists j, place :: 0 <= j < i && tr[j] == HeadRead(c.repository, c.head, place, Yes))
  }

  predicate QuietHost(tr: seq<Event>, i: nat, w: Worker)
    requires i < |tr| && tr[i].DestroyOp?
  {
    && !Unsettled(LastWorkers(tr[..i]), EndedIn(tr[..i]), w)
    && (w.dispatch in EndedIn(tr[..i]) || IdleTwice(tr, i, IdleRead(w.terminal, Some(tr[i].sprite.environment), Some(true))))
  }

  lemma SafeRead(tr: seq<Event>, i: nat, c: Checkout)
    requires i <= |tr| && NothingUnsaved(tr[..i], c)
    ensures ReadSafe(tr, i, c)
  {
    if !c.onTrunk {
      var e := if HeadRead(c.repository, c.head, Branches, Yes) in tr[..i] then HeadRead(c.repository, c.head, Branches, Yes) else HeadRead(c.repository, c.head, Landed, Yes);
      var j :| 0 <= j < i && tr[..i][j] == e;
      assert tr[j] == HeadRead(c.repository, c.head, e.place, Yes);
    }
  }

  /** Read just before the look at the pause file that `i` follows, and once before that. */
  predicate IdleTwice(tr: seq<Event>, i: nat, idle: Event)
    requires i < |tr|
  {
    i > 1 && tr[i - 2] == idle && exists j :: 0 <= j < i - 2 && tr[j] == idle
  }

  /**
   When a worktree is removed, its terminals were listed with nothing done since. Each was an idle shell by a clock
   read since; or a worker's whose dispatch this run ended; or serving no unsettled worker, idle before, and not
   busy since. No process holds a local worktree.
   */
  lemma RemovedQuiet(tr: seq<Event>, i: nat)
    requires Sound(tr) && i < |tr| && Removes(tr[i])
    requires tr[i].GitRemoveOp? || !FoundGone(tr[..i], tr[i].path, EnvOf(tr[i]))
    ensures exists k, now :: LeftQuiet(tr[..RemovalAt(tr, i)], k, tr[i].path, EnvOf(tr[i]), now)
  {
    hide LastWorkers, EndedIn, Planned, Sound, MayRemove, IdleSince, NotBusySince, SeenSince;
    var plan, k := RemovalPlan(tr, i);
    var n := RemovalAt(tr, i);
    var prev := tr[..n];
    var now :| ListsAs(prev[k], plan.path, plan.env, now) && AllQuiet(prev, plan, k, now);
    hide RemovalStands, ReadAgain, AllQuiet, QuietSince, Stopping;
    forall t | t in now
      ensures QuietSince(prev, k, t, plan.path)
      ensures t.handle in Targets(plan.agents) ==> Stopping(prev, k, t)
    {
      QuietOne(prev, k, plan, now, t);
    }
    assert LeftQuiet(prev, k, plan.path, plan.env, now) by { HeldBy(prev, k, plan, now); }
  }

  lemma HeldBy(tr: seq<Event>, k: nat, plan: Removal, now: seq<Terminal>)
    requires AllQuiet(tr, plan, k, now)
    requires forall t :: t in now && t.handle in Targets(plan.agents) ==> Stopping(tr, k, t)
    ensures NoOpFrom(tr, k)
    ensures plan.env.None? ==> exists panes :: HeldByNone(tr, k, plan.path, now, panes)
  {
    hide Stopping, SeenSince;
    assert plan.env.None? ==> HeldByNone(tr, k, plan.path, now, Panes(now, Targets(plan.agents)));
  }

  /** At position `k` the worktree's terminals were listed as `now`, and nothing was done since. */
  ghost predicate LeftQuiet(tr: seq<Event>, k: nat, path: string, env: Env, now: seq<Terminal>) {
    && k < |tr| && ListsAs(tr[k], path, env, now) && (forall m :: k <= m < |tr| ==> !IsOp(tr[m]))
    && (forall t :: t in now ==> QuietSince(tr, k, t, path))
    && (env.None? ==> exists panes :: HeldByNone(tr, k, path, now, panes))
  }

  ghost predicate QuietSince(tr: seq<Event>, k: nat, t: Terminal, path: string) {
    (exists ms :: SeenSince(tr, k, ClockRead(ms)) && IdleShell(t, path, ms)) || Stopping(tr, k, t)
  }

  /** Of a lane this run ended, or idle before, serving no unsettled worker, and not busy since. */
  ghost predicate Stopping(tr: seq<Event>, k: nat, t: Terminal) {
    || (exists w :: w in LastWorkers(tr) && w.terminal == t.handle && w.dispatch in EndedIn(tr))
    || ((forall x :: x in LastWorkers(tr) && x.terminal == t.handle && x.terminal != "" ==> !Unsettled(LastWorkers(tr), EndedIn(tr), x))
        && exists env, idle :: IdleRead(t.handle, env, Some(true)) in tr && SeenSince(tr, k, IdleRead(t.handle, env, idle)) && idle != Some(false))
  }

  /** Nothing ran in the worktree but in panes of such terminals. */
  ghost predicate HeldByNone(tr: seq<Event>, k: nat, path: string, now: seq<Terminal>, panes: set<string>) {
    && SeenSince(tr, k, HolderRead(path, panes, false))
    && forall p :: p in panes ==> exists t :: t in now && t.pane == p && Stopping(tr, k, t)
  }

  lemma QuietOne(tr: seq<Event>, k: nat, plan: Removal, now: seq<Terminal>, t: Terminal)
    requires AllQuiet(tr, plan, k, now) && t in now && k <= |tr| && Planned(tr[..k], LastWorkers(tr), EndedIn(tr), plan)
    ensures QuietSince(tr, k, t, plan.path)
    ensures t.handle in Targets(plan.agents) ==> Stopping(tr, k, t)
  {
    hide LastWorkers, EndedIn, Saved, SeenIdle, SeenSince, NoOpFrom, LiveWorktrees, Panes;
    if t.handle in Targets(plan.agents) {
      var a :| a in plan.agents && a.terminal == t.handle;
      assert MayClose(tr[..k], LastWorkers(tr), EndedIn(tr), a);
      if !a.ending {
        hide HasWorker;
        Kept(tr[..k], tr);
        assert NotBusySince(tr, k, a);
      }
    }
  }

  lemma ReadAgainIn(tr: seq<Event>, plan: Removal, k: nat)
    requires ReadAgain(tr, plan, k)
    ensures k < |tr|
  {
  }

  /**
   A pass that is not dry and never finds a pause leaves out nothing: the worktree of a finished worker that no
   unsettled worker uses and no Sprite stands for, if it is found, was judged; and if that planned its removal,
   Orca was asked for it, or a second reading of the plan's grounds found a change.
   */
  lemma UnpausedRemoves(tr: seq<Event>, workers: seq<Worker>, ended: map<string, string>, scope: set<string>,
                        finished: seq<Worker>, sprites: map<(string, string), Sprite>, closing: map<string, Closing>, f: Worker)
    requires PassLeaves(tr, workers, ended, scope, false, finished, sprites, closing) && PauseRead(true) !in tr
    requires f in workers && (f.status == "completed" || f.status == "failed" || f.dispatch in ended) && (scope == {} || f.dispatch in scope) && f.worktree.Some?
    requires forall k :: k in sprites ==> Some(k.0) != f.workspace
    requires (f.environment, f.worktree) !in LiveWorktrees(workers, ended.Keys)
    ensures var path, env := f.worktree.value, f.environment;
      exists found :: CheckoutRead(path, env, found) in tr && (found.Found? ==>
        exists asked, a :: Slice(tr, asked) && TreeJudged(asked, found.checkout, closing, a)
          && (a.Remove? ==> Requested(tr, path, env) || exists again :: Slice(tr, again) && Disturbed(again, a.plan)))
  {
    hide LiveWorktrees, TerminalDealt, SpriteDone, ClosedFor, Requested, Disturbed, Slice;
    assert Due(f, workers, ended.Keys, scope);
    var path, env := f.worktree.value, f.environment;
    assert TreeDone(tr, path, env, closing, false);
    hide AllDone, Due;
    TreeAsked(tr, path, env, closing);
  }

  lemma TreeAsked(tr: seq<Event>, path: string, env: Env, closing: map<string, Closing>)
    requires TreeDone(tr, path, env, closing, false) && PauseRead(true) !in tr
    ensures exists found :: CheckoutRead(path, env, found) in tr && (found.Found? ==>
        exists asked, a :: Slice(tr, asked) && TreeJudged(asked, found.checkout, closing, a)
          && (a.Remove? ==> Requested(tr, path, env) || exists again :: Slice(tr, again) && Disturbed(again, a.plan)))
  {
    hide Requested, Disturbed, Slice;
    var found :| CheckoutRead(path, env, found) in tr &&
      match found
      case Found(c) => c.path == path && c.environment == env && TreeDealt(tr, c, closing, false)
      case Missing => env == None ==> RegisteredRead(path, false) in tr || (RegisteredRead(path, true) in tr && (false || Carried(tr, Drop(path))))
      case Unreadable => true;
    if found.Found? {
      var c := found.checkout;
      var asked, a :| Slice(tr, asked) && TreeJudged(asked, c, closing, a) && Carried(tr, a);
      RemovalExactly(asked, c, closing, a);
    }
  }
}
