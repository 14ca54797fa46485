/** The reclaimer's decisions, and how it applies them. */
module Reclaim {
  import opened Options
  import opened ReclaimThorough
  import opened ReclaimTrace
  import opened ReclaimWorld

  /** What was read so far justifies the verdict. */
  ghost predicate VerdictOk(tr: seq<Event>, workers: seq<Worker>, ended: set<string>, a: Action) {
    match a
    case Release(d) => d in SettledSet(workers, ended)
    case End(c) => c.ending && MayClose(tr, workers, ended, c)
    case Close(c) => !c.ending && MayClose(tr, workers, ended, c)
    case Remove(plan) => Planned(tr, workers, ended, plan)
    case Drop(path) => Droppable(tr, workers, ended, path)
    case _ => true
  }

  predicate Droppable(tr: seq<Event>, workers: seq<Worker>, ended: set<string>, path: string) {
    && (None, Some(path)) !in LiveWorktrees(workers, ended)
    && CheckoutRead(path, None, Missing) in tr && RegisteredRead(path, true) in tr
  }

  lemma ReadsAgain(a: seq<Event>, b: seq<Event>, c: seq<Event>)
    requires Reads(a, b) && Reads(b, c)
    ensures Reads(a, c)
  {
    ExtendsAgain(a, b, c);
    forall m | |a| <= m < |c|
      ensures !IsOp(c[m])
    {
      if m < |b| { assert c[m] == c[..|b|][m] == b[m]; }
    }
  }

  lemma {:induction false} PlannedKept(tr: seq<Event>, tr': seq<Event>, workers: seq<Worker>, ended: set<string>, plan: Removal)
    requires Extends(tr, tr') && Planned(tr, workers, ended, plan)
    ensures Planned(tr', workers, ended, plan)
  {
    Kept(tr, tr');
    hide LiveWorktrees, LiveTerminals, IdleShell;
    var e, first, ms :| SeenIdle(tr, plan, e, first, ms);
    assert SeenIdle(tr', plan, e, first, ms);
    var c :| CheckoutRead(plan.path, plan.env, Found(c)) in tr && NothingUnsaved(tr, c);
    assert NothingUnsaved(tr', c);
  }

  lemma VerdictKept(tr: seq<Event>, tr': seq<Event>, workers: seq<Worker>, ended: set<string>, a: Action)
    requires Extends(tr, tr') && VerdictOk(tr, workers, ended, a)
    ensures VerdictOk(tr', workers, ended, a)
  {
    Kept(tr, tr');
    hide Planned, LiveWorktrees, LiveTerminals, Extends;
    if a.Remove? { PlannedKept(tr, tr', workers, ended, a.plan); }
  }

  // ----- decisions

  /** A recorded terminal: still to be dealt with, already gone, or kept. */
  datatype Standing = Here | Away | Stays

  method Current(w: World, terminal: string, env: Env) returns (s: Standing, ghost p: Presence)
    requires w.Valid()
    modifies w`trace
    ensures w.Valid() && Reads(old(w.trace), w.trace)
    ensures w.trace == old(w.trace) + [PresenceRead(terminal, env, p)]
    ensures (s == Here <==> Present(p)) && (s == Away <==> p == Disconnected)
  {
    hide Sound, LastWorkers, EndedIn, Reads;
    ghost var before := w.trace;
    var presence := w.PresenceOf(terminal, env);
    ReadsOne(before, PresenceRead(terminal, env, presence));
    p := presence;
    s := match presence case Disconnected => Away case Stale => Stays case RuntimeDown => Stays case _ => Here;
  }

  /** terminal_action: what becomes of a finished worker's terminal. */
  method TerminalAction(w: World, worker: Worker, live: set<string>, ended: map<string, string>, ghost workers: seq<Worker>)
    returns (a: Option<Action>)
    requires w.Valid() && worker in workers && worker.dispatch in SettledSet(workers, ended.Keys)
    requires live == LiveTerminals(workers, ended.Keys)
    modifies w`trace
    ensures w.Valid() && Reads(old(w.trace), w.trace)
    ensures a.Some? ==> VerdictOk(w.trace, workers, ended.Keys, a.value)
    ensures a.Some? ==> a.value.Keep? || a.value.Release? || a.value.End? || a.value.Close?
    ensures TerminalJudged(w.trace[|old(w.trace)|..], worker, live, ended, a)
  {
    hide LiveTerminals, SettledSet, Sound, LastWorkers, EndedIn, Reads;
    ReadsNone(w.trace);
    if worker.terminalState == "released" || worker.terminal == "" {
      return None;
    }
    var t := worker.terminal;
    assert HasWorker(workers, worker.dispatch, t);
    if worker.dispatch in ended {
      if ended[worker.dispatch] == CLOSED_BY_STOP {
        return None;
      }
      if worker.ownership == "owned" && Settled(worker) && worker.retained == None {
        return Some(Release(worker.dispatch));
      }
      var s, p := Current(w, t, worker.environment);
      assert w.trace[|old(w.trace)|..] == [PresenceRead(t, worker.environment, p)];
      if s == Away { return None; }
      if s == Stays { return Some(Keep(t)); }
      return Some(End(Closing(t, true, worker.dispatch, worker.environment)));
    }
    if worker.retained.Some? && worker.retained.value != EXTERNAL {
      return Some(Keep(t));
    }
    if worker.ownership == "owned" {
      return Some(Release(worker.dispatch));
    }
    if worker.retained != Some(EXTERNAL) && worker.environment == None {
      return Some(Keep(t));
    }
    if t in live {
      return Some(Keep(t));
    }
    var s, p := Current(w, t, worker.environment);
    assert w.trace[|old(w.trace)|..] == [PresenceRead(t, worker.environment, p)];
    if s == Away { return None; }
    if s == Stays { return Some(Keep(t)); }
    ghost var before := w.trace;
    var idle := w.Idle(t, worker.environment);
    ReadsOne(before, IdleRead(t, worker.environment, idle));
    ReadsAgain(old(w.trace), before, w.trace);
    assert w.trace[|old(w.trace)|..] == [PresenceRead(t, worker.environment, p), IdleRead(t, worker.environment, idle)];
    if idle.None? { return None; }
    if !idle.value { return Some(Keep(t)); }
    a := Some(Close(Closing(t, false, worker.dispatch, worker.environment)));
  }

  lemma ReadsNone(tr: seq<Event>)
    ensures Reads(tr, tr)
  {
  }

  lemma ReadsOne(tr: seq<Event>, e: Event)
    requires !IsOp(e)
    ensures Reads(tr, tr + [e])
  {
  }

  /** unsaved: what a removal would lose, asking the origin only when the tree itself does not tell. */
  method Unsaved(w: World, c: Checkout) returns (held: bool)
    requires w.Valid()
    modifies w`trace
    ensures w.Valid() && Reads(old(w.trace), w.trace)
    ensures !held ==> NothingUnsaved(w.trace, c)
    ensures Judged(w.trace[|old(w.trace)|..], c, !held)
  {
    hide Sound, LastWorkers, EndedIn;
    if c.dirty || c.offOrigin != 0 {
      return true;
    }
    if c.onTrunk {
      return false;
    }
    var onBranch := w.LookUp(c.repository, c.head, Branches);
    if onBranch == Yes {
      return false;
    }
    if onBranch == Refused {
      return true;
    }
    var landed := w.LookUp(c.repository, c.head, Landed);
    held := landed != Yes;
  }

  /** gc's closings, each under its own terminal and each justified. */
  ghost predicate ClosingOk(tr: seq<Event>, workers: seq<Worker>, ended: set<string>, closing: map<string, Closing>) {
    forall t :: t in closing ==> closing[t].terminal == t && MayClose(tr, workers, ended, closing[t])
  }

  /** worktree_action, with the reads its caller makes for it. */
  method WorktreeAction(w: World, c: Checkout, closing: map<string, Closing>, ghost workers: seq<Worker>, ghost ended: set<string>)
    returns (a: Action)
    requires w.Valid() && ClosingOk(w.trace, workers, ended, closing)
    requires CheckoutRead(c.path, c.environment, Found(c)) in w.trace
    requires (c.environment, Some(c.path)) !in LiveWorktrees(workers, ended)
    modifies w`trace
    ensures w.Valid() && Reads(old(w.trace), w.trace)
    ensures VerdictOk(w.trace, workers, ended, a) && (a.Keep? || a.Remove?)
    ensures TreeJudged(w.trace[|old(w.trace)|..], c, closing, a)
  {
    hide Sound, LiveWorktrees, LiveTerminals, IdleShell, MayClose, ClosingOk, Planned, Reads, NothingUnsaved, LastWorkers, EndedIn, Handles, Extends;
    ghost var start := w.trace;
    var list := w.TerminalsIn(c.path, c.environment);
    var ms := w.NowMs();
    ghost var before := w.trace;
    ReadsTwo(start, TerminalsRead(c.path, c.environment, list), ClockRead(ms));
    var terminals := Terms(list);
    if list.ListError? {
      KeepFollows(start, w.trace, c, closing, list, ms);
      return Keep(c.path);
    }
    if exists t :: t in terminals && t.agent && t.handle !in closing {
      AgentInUse(terminals, closing, c.path, ms);
      KeepFollows(start, w.trace, c, closing, list, ms);
      return Keep(c.path);
    }
    if exists t :: t in terminals && t.handle !in closing && !IdleShell(t, c.path, ms) {
      KeepFollows(start, w.trace, c, closing, list, ms);
      return Keep(c.path);
    }
    var held := Unsaved(w, c);
    ReadsAgain(start, before, w.trace);
    ReadsExtend(before, w.trace);
    a := if held then Keep(c.path) else Remove(PlanFor(c, list, closing));
    ChoiceFollows(start, before, w.trace, c, closing, list, ms, held);
    if !held {
      PlanFollows(start, before, w.trace, workers, ended, c, closing, list, ms, terminals, a.plan.agents);
    }
  }

  lemma AgentInUse(terminals: seq<Terminal>, closing: map<string, Closing>, path: string, ms: int)
    requires exists t :: t in terminals && t.agent && t.handle !in closing
    ensures InUse(terminals, closing, path, ms)
  {
    var t :| t in terminals && t.agent && t.handle !in closing;
    assert !IdleShell(t, path, ms);
  }

  lemma KeepFollows(start: seq<Event>, tr: seq<Event>, c: Checkout, closing: map<string, Closing>, list: ListAnswer, ms: int)
    requires tr == start + [TerminalsRead(c.path, c.environment, list)] + [ClockRead(ms)]
    requires list.ListError? || InUse(Terms(list), closing, c.path, ms)
    ensures TreeJudged(tr[|start|..], c, closing, Keep(c.path))
  {
    hide InUse;
    assert TreeAnswered(tr[|start|..], c, closing, Keep(c.path), list, ms, [], false);
  }

  lemma ChoiceFollows(start: seq<Event>, before: seq<Event>, tr: seq<Event>, c: Checkout, closing: map<string, Closing>, list: ListAnswer, ms: int, held: bool)
    requires before == start + [TerminalsRead(c.path, c.environment, list)] + [ClockRead(ms)] && Extends(before, tr)
    requires !list.ListError? && !InUse(Terms(list), closing, c.path, ms) && Judged(tr[|before|..], c, !held)
    ensures TreeJudged(tr[|start|..], c, closing, if held then Keep(c.path) else Remove(PlanFor(c, list, closing)))
  {
    hide InUse, Judged, PlanFor;
    assert tr == before + tr[|before|..];
    assert tr[|start|..] == [TerminalsRead(c.path, c.environment, list), ClockRead(ms)] + tr[|before|..];
    assert TreeAnswered(tr[|start|..], c, closing, if held then Keep(c.path) else Remove(PlanFor(c, list, closing)), list, ms, tr[|before|..], !held);
  }

  lemma ReadsTwo(tr: seq<Event>, e: Event, f: Event)
    requires !IsOp(e) && !IsOp(f)
    ensures Reads(tr, tr + [e] + [f])
  {
  }

  lemma ReadsExtend(tr: seq<Event>, tr': seq<Event>)
    requires Reads(tr, tr')
    ensures Extends(tr, tr')
  {
  }

  lemma PlanFollows(start: seq<Event>, before: seq<Event>, tr: seq<Event>, workers: seq<Worker>, ended: set<string>, c: Checkout,
                    closing: map<string, Closing>, list: ListAnswer, ms: int, terminals: seq<Terminal>, agents: seq<Closing>)
    requires Extends(before, tr) && ClosingOk(start, workers, ended, closing)
    requires CheckoutRead(c.path, c.environment, Found(c)) in start && NothingUnsaved(tr, c)
    requires (c.environment, Some(c.path)) !in LiveWorktrees(workers, ended)
    requires before == start + [TerminalsRead(c.path, c.environment, list)] + [ClockRead(ms)]
    requires !list.ListError? && terminals == Terms(list)
    requires forall t :: t in terminals && t.handle !in closing ==> IdleShell(t, c.path, ms)
    requires agents == Stopping(terminals, closing)
    ensures Planned(tr, workers, ended, Removal(c.path, c.environment, Handles(terminals), agents))
  {
    hide LiveWorktrees, MayClose, IdleShell, NothingUnsaved, Handles, Targets;
    var plan := Removal(c.path, c.environment, Handles(terminals), agents);
    var e := TerminalsRead(c.path, c.environment, list);
    assert before[|start|] == e && before[|start| + 1] == ClockRead(ms);
    assert Extends(start, before) by { StartExtends(start, e, ClockRead(ms)); }
    Kept(start, before);
    Kept(before, tr);
    AgentsMayClose(start, tr, workers, ended, closing, terminals, agents);
    StoppingTargets(terminals, closing);
    assert SeenIdle(tr, plan, e, terminals, ms);
    assert Saved(tr, c.path, c.environment);
  }

  lemma StartExtends(tr: seq<Event>, e: Event, f: Event)
    ensures Extends(tr, tr + [e] + [f])
  {
  }

  lemma AgentsMayClose(start: seq<Event>, tr: seq<Event>, workers: seq<Worker>, ended: set<string>,
                       closing: map<string, Closing>, terminals: seq<Terminal>, agents: seq<Closing>)
    requires ClosingOk(start, workers, ended, closing) && agents == Stopping(terminals, closing)
    requires forall e :: e in start ==> e in tr
    ensures forall a :: a in agents ==> MayClose(tr, workers, ended, a)
  {
    hide HasWorker, LiveTerminals;
  }

  lemma StoppingTargets(terminals: seq<Terminal>, closing: map<string, Closing>)
    requires forall t :: t in closing ==> closing[t].terminal == t
    ensures forall t :: t in terminals && t.handle in closing ==> t.handle in Targets(Stopping(terminals, closing))
  {
    forall t | t in terminals && t.handle in closing
      ensures t.handle in Targets(Stopping(terminals, closing))
    {
      assert closing[t.handle] in Stopping(terminals, closing);
    }
  }

  // ----- reading again before a removal

  /** What reading once more adds. */
  lemma SinceGrows(tr: seq<Event>, e: Event, k: nat)
    requires k <= |tr|
    ensures SeenSince(tr + [e], k, e)
    ensures forall x :: SeenSince(tr, k, x) ==> SeenSince(tr + [e], k, x)
    ensures NoOpFrom(tr, k) && !IsOp(e) ==> NoOpFrom(tr + [e], k)
  {
    assert (tr + [e])[k..] == tr[k..] + [e];
  }

  /** The checks apply() repeats right before it removes a worktree. */
  method ReadAgainQuiet(w: World, plan: Removal) returns (quiet: bool)
    requires w.Valid()
    modifies w`trace
    ensures w.Valid() && Reads(old(w.trace), w.trace)
    ensures quiet ==> ReadAgain(w.trace, plan, |old(w.trace)|)
    ensures !quiet ==> Disturbed(w.trace[|old(w.trace)|..], plan)
  {
    hide Sound, LastWorkers, EndedIn, IdleShell, SeenSince, NoOpFrom, Reads, NotBusySince, IdleSince, Extends, Targets, Panes, ReadAgain, Disturbed;
    ghost var start, k := w.trace, |w.trace|;
    var list := w.TerminalsIn(plan.path, plan.env);
    FirstRead(start, w.trace[k]);
    ghost var listed := w.trace;
    OneMore(start, listed);
    if list.ListError? {
      SinceReads(start, w.trace);
      UnlistedDisturbs(w.trace, plan, k);
      return false;
    }
    var now := Terms(list);
    var woke := AnyWoke(w, plan, k);
    ghost var asked := w.trace;
    ExtendsAgain(start, listed, asked);
    if woke || exists t :: t in now && t.handle !in plan.shells {
      SinceReads(start, asked);
      WokeDisturbs(listed, asked, plan, k, list, woke);
      return false;
    }
    quiet := AllIdle(w, plan, now, Targets(plan.agents), k);
    ghost var idled := w.trace;
    ExtendsAgain(listed, asked, idled);
    ExtendsAgain(start, asked, idled);
    if !quiet { UseDisturbs(listed, idled, plan, k, list); }
    if quiet && plan.env.None? {
      var busy := w.Holder(plan.path, Panes(now, Targets(plan.agents)));
      SinceGrows(idled, HolderRead(plan.path, Panes(now, Targets(plan.agents)), busy), k);
      OneMore(idled, w.trace);
      quiet := !busy;
      if busy {
        ExtendsAgain(listed, idled, w.trace);
        HolderDisturbs(listed, w.trace, plan, k, list);
      }
    } else {
      SameTrace(idled);
    }
    ExtendsAgain(listed, idled, w.trace);
    ExtendsAgain(start, idled, w.trace);
    SinceReads(start, w.trace);
    if quiet {
      QuietFollows(w.trace, plan, k, now, list, listed, asked, idled);
    }
  }

  /** The second listing stands where it was read. */
  predicate ListedAt(listed: seq<Event>, tr: seq<Event>, plan: Removal, k: nat, list: ListAnswer) {
    k + 1 == |listed| && Extends(listed, tr) && listed[k] == TerminalsRead(plan.path, plan.env, list) && !list.ListError?
  }

  lemma ListedStays(listed: seq<Event>, tr: seq<Event>, plan: Removal, k: nat, list: ListAnswer)
    requires ListedAt(listed, tr, plan, k, list)
    ensures k < |tr| && tr[k..] != [] && tr[k..][0] == TerminalsRead(plan.path, plan.env, list)
  {
    assert tr[k] == tr[..|listed|][k];
  }

  lemma UnlistedDisturbs(tr: seq<Event>, plan: Removal, k: nat)
    requires k + 1 == |tr| && tr[k] == TerminalsRead(plan.path, plan.env, ListError)
    ensures Disturbed(tr[k..], plan)
  {
  }

  lemma WokeDisturbs(listed: seq<Event>, tr: seq<Event>, plan: Removal, k: nat, list: ListAnswer, woke: bool)
    requires ListedAt(listed, tr, plan, k, list)
    requires woke ==> exists a :: a in plan.agents && !a.ending && SeenSince(tr, k, IdleRead(a.terminal, a.env, Some(false)))
    requires woke || exists t :: t in Terms(list) && t.handle !in plan.shells
    ensures Disturbed(tr[k..], plan)
  {
    ListedStays(listed, tr, plan, k, list);
    hide IdleShell, Targets, Panes;
  }

  lemma UseDisturbs(listed: seq<Event>, tr: seq<Event>, plan: Removal, k: nat, list: ListAnswer)
    requires ListedAt(listed, tr, plan, k, list)
    requires exists t, ms :: t in Terms(list) && t.handle !in Targets(plan.agents) && SeenSince(tr, k, ClockRead(ms)) && !IdleShell(t, plan.path, ms)
    ensures Disturbed(tr[k..], plan)
  {
    ListedStays(listed, tr, plan, k, list);
    hide IdleShell, Targets, Panes;
  }

  lemma HolderDisturbs(listed: seq<Event>, tr: seq<Event>, plan: Removal, k: nat, list: ListAnswer)
    requires ListedAt(listed, tr, plan, k, list) && plan.env == None
    requires SeenSince(tr, k, HolderRead(plan.path, Panes(Terms(list), Targets(plan.agents)), true))
    ensures Disturbed(tr[k..], plan)
  {
    ListedStays(listed, tr, plan, k, list);
    hide IdleShell, Targets, Panes;
  }

  lemma OneMore(tr: seq<Event>, tr': seq<Event>)
    requires tr' != [] && tr == tr'[..|tr'| - 1]
    ensures Extends(tr, tr')
  {
  }

  lemma SameTrace(tr: seq<Event>)
    ensures Extends(tr, tr)
  {
  }

  lemma QuietFollows(tr: seq<Event>, plan: Removal, k: nat, now: seq<Terminal>, list: ListAnswer, listed: seq<Event>, asked: seq<Event>, idled: seq<Event>)
    requires k + 1 == |listed| && listed[k] == TerminalsRead(plan.path, plan.env, list) && !list.ListError? && NoOpFrom(tr, k)
    requires Extends(listed, tr) && Extends(asked, idled) && Extends(idled, tr) && k <= |asked|
    requires now == Terms(list) && forall t :: t in now ==> t.handle in plan.shells
    requires forall a :: a in plan.agents && !a.ending ==> NotBusySince(asked, k, a)
    requires forall t :: t in now && t.handle !in Targets(plan.agents) ==> IdleSince(idled, k, t, plan.path)
    requires plan.env.None? ==> SeenSince(tr, k, HolderRead(plan.path, Panes(now, Targets(plan.agents)), false))
    ensures ReadAgain(tr, plan, k)
  {
    hide NoOpFrom, SeenSince, NotBusySince, IdleSince, Targets, Panes;
    ExtendsAgain(asked, idled, tr);
    NotBusyKept(asked, tr, plan, k);
    IdleSinceGrows(idled, tr, k);
    assert tr[k] == tr[..|listed|][k] == listed[k];
    assert ListsAs(tr[k], plan.path, plan.env, now);
    assert AllQuiet(tr, plan, k, now);
  }

  lemma FirstRead(tr: seq<Event>, e: Event)
    requires !IsOp(e)
    ensures NoOpFrom(tr + [e], |tr|)
  {
  }

  lemma SinceReads(tr: seq<Event>, tr': seq<Event>)
    requires Extends(tr, tr') && NoOpFrom(tr', |tr|)
    ensures Reads(tr, tr')
  {
  }

  /** What was seen since `k` is still seen since `k` when the trace grows. */
  lemma SinceKept(tr: seq<Event>, tr': seq<Event>, k: nat, e: Event)
    requires k <= |tr| && Extends(tr, tr') && SeenSince(tr, k, e)
    ensures SeenSince(tr', k, e)
  {
    var i :| 0 <= i < |tr[k..]| && tr[k..][i] == e;
    assert tr'[k + i] == tr'[..|tr|][k + i] == e;
    assert tr'[k..][i] == e;
  }

  lemma IdleSinceGrows(tr: seq<Event>, tr': seq<Event>, k: nat)
    requires k <= |tr| && Extends(tr, tr')
    ensures forall t, path :: IdleSince(tr, k, t, path) ==> IdleSince(tr', k, t, path)
  {
    hide IdleShell, Extends, SeenSince;
    forall t, path | IdleSince(tr, k, t, path)
      ensures IdleSince(tr', k, t, path)
    {
      var ms :| SeenSince(tr, k, ClockRead(ms)) && IdleShell(t, path, ms);
      SinceKept(tr, tr', k, ClockRead(ms));
    }
  }

  lemma NotBusyKept(tr: seq<Event>, tr': seq<Event>, plan: Removal, k: nat)
    requires k <= |tr| && Extends(tr, tr')
    requires forall a :: a in plan.agents && !a.ending ==> NotBusySince(tr, k, a)
    ensures forall a :: a in plan.agents && !a.ending ==> NotBusySince(tr', k, a)
  {
    hide Extends, SeenSince;
    forall a | a in plan.agents && !a.ending
      ensures NotBusySince(tr', k, a)
    {
      var idle :| SeenSince(tr, k, IdleRead(a.terminal, a.env, idle)) && idle != Some(false);
      SinceKept(tr, tr', k, IdleRead(a.terminal, a.env, idle));
    }
  }

  /** Whether a terminal the removal would stop for being idle is busy after all. */
  method AnyWoke(w: World, plan: Removal, ghost k: nat) returns (woke: bool)
    requires w.Valid() && k < |w.trace| && NoOpFrom(w.trace, k)
    modifies w`trace
    ensures w.Valid() && Extends(old(w.trace), w.trace) && NoOpFrom(w.trace, k)
    ensures !woke ==> forall a :: a in plan.agents && !a.ending ==> NotBusySince(w.trace, k, a)
    ensures woke ==> exists a :: a in plan.agents && !a.ending && SeenSince(w.trace, k, IdleRead(a.terminal, a.env, Some(false)))
  {
    hide Sound, LastWorkers, EndedIn, SeenSince, NoOpFrom;
    for i := 0 to |plan.agents|
      invariant w.Valid() && Extends(old(w.trace), w.trace) && NoOpFrom(w.trace, k)
      invariant forall j :: 0 <= j < i && !plan.agents[j].ending ==> NotBusySince(w.trace, k, plan.agents[j])
    {
      var a := plan.agents[i];
      if !a.ending {
        ghost var before := w.trace;
        var idle := w.Idle(a.terminal, a.env);
        SinceGrows(before, IdleRead(a.terminal, a.env, idle), k);
        if idle == Some(false) {
          return true;
        }
        assert NotBusySince(w.trace, k, a);
      }
    }
    woke := false;
  }

  /** Whether every other terminal is an idle shell, each judged by its own reading of the clock. */
  method AllIdle(w: World, plan: Removal, now: seq<Terminal>, stopping: set<string>, ghost k: nat) returns (quiet: bool)
    requires w.Valid() && k < |w.trace| && NoOpFrom(w.trace, k)
    modifies w`trace
    ensures w.Valid() && Extends(old(w.trace), w.trace) && NoOpFrom(w.trace, k)
    ensures quiet ==> forall t :: t in now && t.handle !in stopping ==> IdleSince(w.trace, k, t, plan.path)
    ensures !quiet ==> exists t, ms :: t in now && t.handle !in stopping && SeenSince(w.trace, k, ClockRead(ms)) && !IdleShell(t, plan.path, ms)
  {
    hide Sound, LastWorkers, EndedIn, SeenSince, NoOpFrom, IdleShell, IdleSince;
    for i := 0 to |now|
      invariant w.Valid() && Extends(old(w.trace), w.trace) && NoOpFrom(w.trace, k)
      invariant forall j :: 0 <= j < i && now[j].handle !in stopping ==> IdleSince(w.trace, k, now[j], plan.path)
    {
      var t := now[i];
      if t.handle !in stopping {
        ghost var before := w.trace;
        var ms := w.NowMs();
        SinceGrows(before, ClockRead(ms), k);
        if !IdleShell(t, plan.path, ms) {
          return false;
        }
        IdleSinceGrows(before, w.trace, k);
        IdleNow(w.trace, k, t, plan.path, ms);
      }
    }
    quiet := true;
  }

  lemma IdleNow(tr: seq<Event>, k: nat, t: Terminal, path: string, ms: int)
    requires SeenSince(tr, k, ClockRead(ms)) && IdleShell(t, path, ms)
    ensures IdleSince(tr, k, t, path)
  {
    hide SeenSince, IdleShell;
  }

  lemma ReadAgainGrows(tr: seq<Event>, e: Event, plan: Removal, k: nat)
    requires ReadAgain(tr, plan, k) && !IsOp(e)
    ensures ReadAgain(tr + [e], plan, k)
  {
    hide IdleShell, SeenSince, NoOpFrom, IdleSince, NotBusySince;
    var tr' := tr + [e];
    var now :| ListsAs(tr[k], plan.path, plan.env, now) && AllQuiet(tr, plan, k, now);
    SinceGrows(tr, e, k);
    IdleSinceGrows(tr, tr', k);
    NotBusyKept(tr, tr', plan, k);
    assert AllQuiet(tr', plan, k, now);
  }

  // ----- apply

  /** apply: does what the verdict says, unless cleanup is paused or something changed. */
  method Apply(w: World, a: Action) returns (done: Action)
    requires w.Valid() && VerdictOk(w.trace, w.workers, w.ended, a)
    modifies w`trace
    ensures w.Valid() && Extends(old(w.trace), w.trace)
    ensures done.DidRemove? && !a.DidRemove? ==> a == Remove(done.plan) && Requested(w.trace[|old(w.trace)|..], done.plan.path, done.plan.env)
    ensures Carried(w.trace[|old(w.trace)|..], a) && !done.Remove?
  {
    hide Sound, OpOk, MayClose, Planned, Droppable, LastWorkers, EndedIn, SettledSet, Slice, Disturbed;
    if a.Keep? {
      return a;
    }
    ghost var start := w.trace;
    var held := w.Held();
    SeenAt(w.trace, |start|, |start|);
    if held {
      return Skip(Target(a));
    }
    VerdictKept(start, w.trace, w.workers, w.ended, a);
    match a
    case Release(d) =>
      assert OpOk(w.trace, ReleaseOp(d, true)) by { ReleaseFollows(w.trace, w.workers, w.ended, d); }
      var released := w.Release(d);
      SeenAt(w.trace, |start|, |start| + 1);
      return if released then DidRelease(d) else Keep(d);
    case End(c) =>
      assert OpOk(w.trace, CloseOp(c.terminal, c.env, false)) by { CloseFollows(w.trace, c); }
      var refused := w.Close(c.terminal, c.env);
      SeenAt(w.trace, |start|, |start| + 1);
      return if refused then Keep(c.terminal) else DidClose(c.terminal);
    case Close(c) =>
      ghost var before := w.trace;
      done := ApplyClose(w, c);
      CarriedSince(start, before, w.trace, a);
    case Remove(plan) =>
      ghost var before := w.trace;
      done := ApplyRemoval(w, plan);
      CarriedSince(start, before, w.trace, a);
    case Drop(path) =>
      assert OpOk(w.trace, RemoveOp(path, None, Removed)) by { DropFollows(w.trace, path); }
      var removed := w.Remove(path, None);
      SeenAt(w.trace, |start|, |start| + 1);
      return if removed == RemoveError then Keep(path) else DidDrop(path);
    case _ => return a;
  }

  /** What was carried out on the way was carried out. */
  lemma CarriedSince(start: seq<Event>, before: seq<Event>, tr: seq<Event>, a: Action)
    requires Extends(start, before) && Extends(before, tr) && Carried(tr[|before|..], a)
    ensures Extends(start, tr) && Carried(tr[|start|..], a)
    ensures forall e :: e in tr[|before|..] ==> e in tr[|start|..]
  {
    ExtendsAgain(start, before, tr);
    var tail, part := tr[|start|..], tr[|before|..];
    assert SliceAt(tail, part, |before| - |start|);
    SliceHas(tail, part);
    CarriedWithin(tail, part, a);
  }

  lemma ReleaseFollows(tr: seq<Event>, workers: seq<Worker>, ended: set<string>, d: string)
    requires JustUnpaused(tr) && VerdictOk(tr, workers, ended, Release(d)) && workers == LastWorkers(tr) && ended == EndedIn(tr)
    ensures OpOk(tr, ReleaseOp(d, true))
  {
  }

  lemma CloseFollows(tr: seq<Event>, c: Closing)
    requires JustUnpaused(tr) && MayClose(tr, LastWorkers(tr), EndedIn(tr), c)
    requires c.ending || (|tr| > 1 && tr[|tr| - 2] == IdleRead(c.terminal, c.env, Some(true)) && IdleRead(c.terminal, c.env, Some(true)) in tr[..|tr| - 2])
    ensures OpOk(tr, CloseOp(c.terminal, c.env, false))
  {
    hide MayClose;
    assert CloseStands(tr, c.terminal, c.env);
  }

  /** An idle terminal's own reading, made before the verdict. */
  lemma IdleBefore(start: seq<Event>, tr: seq<Event>, workers: seq<Worker>, ended: set<string>, c: Closing)
    requires VerdictOk(start, workers, ended, Close(c)) && |tr| == |start| + 2 && tr[..|start|] == start
    ensures !c.ending ==> IdleRead(c.terminal, c.env, Some(true)) in tr[..|tr| - 2]
  {
    hide LiveTerminals, HasWorker;
  }

  lemma DropFollows(tr: seq<Event>, path: string)
    requires JustUnpaused(tr) && Droppable(tr, LastWorkers(tr), EndedIn(tr), path)
    ensures OpOk(tr, RemoveOp(path, None, Removed))
  {
    hide LiveWorktrees;
  }

  method ApplyClose(w: World, c: Closing) returns (done: Action)
    requires w.Valid() && VerdictOk(w.trace, w.workers, w.ended, Close(c))
    modifies w`trace
    ensures w.Valid() && Extends(old(w.trace), w.trace) && !done.DidRemove? && !done.Remove?
    ensures Carried(w.trace[|old(w.trace)|..], Close(c))
  {
    hide Sound, MayClose, LastWorkers, EndedIn;
    ghost var start := w.trace;
    var idle := w.Idle(c.terminal, c.env);
    SeenAt(w.trace, |start|, |start|);
    if idle != Some(true) {
      assert idle == None || idle == Some(false) by { if idle.Some? { assert !idle.value; } }
      return Keep(c.terminal);
    }
    var held := w.Held();
    SeenAt(w.trace, |start|, |start| + 1);
    if held {
      return Skip(c.terminal);
    }
    VerdictKept(start, w.trace, w.workers, w.ended, Close(c));
    IdleBefore(start, w.trace, w.workers, w.ended, c);
    CloseFollows(w.trace, c);
    var refused := w.Close(c.terminal, c.env);
    SeenAt(w.trace, |start|, |start| + 2);
    done := if refused then Keep(c.terminal) else DidClose(c.terminal);
  }

  /** A removal whose checks, repeated, still stand when cleanup is found unpaused. */
  lemma RemovalFollows(start: seq<Event>, tr: seq<Event>, plan: Removal)
    requires JustUnpaused(tr) && ReadAgain(tr, plan, |start|) && Extends(start, tr)
    requires Planned(start, LastWorkers(tr), EndedIn(tr), plan)
    ensures MayRemove(tr, plan.path, plan.env) && OpOk(tr, RemoveOp(plan.path, plan.env, Removed))
  {
    hide ReadAgain, Planned, MayDrop;
    assert tr[..|start|] == start;
    assert RemovalStands(tr, plan, |start|);
  }

  method ApplyRemoval(w: World, plan: Removal) returns (done: Action)
    requires w.Valid() && Planned(w.trace, w.workers, w.ended, plan)
    modifies w`trace
    ensures w.Valid() && Extends(old(w.trace), w.trace)
    ensures !done.Remove? && (done.DidRemove? ==> done.plan == plan)
    ensures done.DidRemove? ==> Requested(w.trace[|old(w.trace)|..], plan.path, plan.env)
    ensures Carried(w.trace[|old(w.trace)|..], Remove(plan))
  {
    hide Sound, Planned, ReadAgain, LastWorkers, EndedIn, OpOk, NoOpFrom, MayRemove, RefusedRemoval;
    ghost var start := w.trace;
    var quiet := ReadAgainQuiet(w, plan);
    if !quiet {
      DisturbedKeeps(w.trace[|start|..], plan);
      return Keep(plan.path);
    }
    ghost var before := w.trace;
    var held := w.Held();
    ExtendsAgain(start, before, w.trace);
    SeenAt(w.trace, |start|, |before|);
    if held {
      return Skip(plan.path);
    }
    ReadAgainGrows(before, PauseRead(false), plan, |start|);
    RemovalFollows(start, w.trace, plan);
    ghost var ready := w.trace;
    ghost var removed, rest;
    done, removed, rest := RemoveNow(w, plan);
    ExtendsAgain(start, ready, w.trace);
    SeenAt(w.trace, |start|, |ready|);
  }

  /** Whether the worktree is gone after Orca's answer and what followed it. */
  predicate GoneAfter(plan: Removal, removed: RemoveAnswer, rest: seq<Event>) {
    || removed == Removed
    || (plan.env == None && removed == Unregistered && rest == [DirectoryRead(plan.path, true), GitRemoveOp(plan.path, false)])
    || (plan.env == None && rest != [] && rest[|rest| - 1] == DirectoryRead(plan.path, false))
  }

  /** Asks Orca for the removal, and git if Orca does not track the worktree. */
  method RemoveNow(w: World, plan: Removal) returns (done: Action, ghost removed: RemoveAnswer, ghost rest: seq<Event>)
    requires w.Valid() && JustUnpaused(w.trace) && MayRemove(w.trace, plan.path, plan.env)
    modifies w`trace
    ensures w.Valid() && w.trace == old(w.trace) + [RemoveOp(plan.path, plan.env, removed)] + rest
    ensures done == if GoneAfter(plan, removed, rest) then DidRemove(plan) else Keep(plan.path)
    ensures plan.env == None && removed == Unregistered ==>
      || (exists refused :: rest == [DirectoryRead(plan.path, true), GitRemoveOp(plan.path, refused)])
      || (exists left :: rest == [DirectoryRead(plan.path, false), DirectoryRead(plan.path, left)])
  {
    hide Sound, LastWorkers, EndedIn, OpOk, MayRemove, RefusedRemoval, JustUnpaused;
    ghost var ready := w.trace;
    RemoveFollows(ready, plan);
    var answer := w.Remove(plan.path, plan.env);
    removed, rest := answer, [];
    if answer == Removed {
      return DidRemove(plan), removed, rest;
    }
    if plan.env.Some? {
      return Keep(plan.path), removed, rest;
    }
    if answer == Unregistered {
      var there := w.IsDirectory(plan.path);
      if there {
        GitRemoveFollows(ready, w.trace, plan.path);
        var refused := w.GitRemove(plan.path);
        rest := [DirectoryRead(plan.path, true), GitRemoveOp(plan.path, refused)];
        assert w.trace == ready + [RemoveOp(plan.path, plan.env, removed)] + rest;
        return if refused then Keep(plan.path) else DidRemove(plan), removed, rest;
      }
    }
    var left := w.IsDirectory(plan.path);
    rest := [DirectoryRead(plan.path, left)];
    if answer == Unregistered {
      rest := [DirectoryRead(plan.path, false), DirectoryRead(plan.path, left)];
    }
    assert w.trace == ready + [RemoveOp(plan.path, plan.env, removed)] + rest;
    done := if left then Keep(plan.path) else DidRemove(plan);
  }

  lemma RemoveFollows(tr: seq<Event>, plan: Removal)
    requires JustUnpaused(tr) && MayRemove(tr, plan.path, plan.env)
    ensures OpOk(tr, RemoveOp(plan.path, plan.env, Removed))
  {
    hide MayRemove, MayDrop;
  }

  lemma DisturbedKeeps(again: seq<Event>, plan: Removal)
    requires Disturbed(again, plan)
    ensures Carried(again, Remove(plan))
  {
    hide Disturbed;
    assert SliceAt(again, again, 0);
  }

  lemma GitRemoveFollows(ready: seq<Event>, tr: seq<Event>, path: string)
    requires JustUnpaused(ready) && MayRemove(ready, path, None)
    requires tr == ready + [RemoveOp(path, None, Unregistered)] + [DirectoryRead(path, true)]
    ensures OpOk(tr, GitRemoveOp(path, false))
  {
    hide MayRemove;
    assert tr[..|tr| - 2] == ready;
  }
}
