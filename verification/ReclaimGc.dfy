/** gc: one pass over an Orca Run, from stopping lanes to destroying Sprites. */
module ReclaimGc {
  import opened Options
  import opened ReclaimThorough
  import opened ReclaimTrace
  import opened ReclaimWorld
  import opened Reclaim

  // ----- Sprites

  /** What sprite_action found out about a Sprite it wants destroyed. */
  ghost predicate SpriteVerdictOk(tr: seq<Event>, workers: seq<Worker>, ended: set<string>, w: Worker, sprite: Sprite) {
    && w.workspace !in LiveWorkspaces(workers, ended)
    && (w.dispatch in ended || IdleRead(w.terminal, Some(sprite.environment), Some(true)) in tr)
    && exists c :: SpriteSaved(tr, sprite, c)
  }

  method SpriteAction(w: World, worker: Worker, sprite: Sprite, ended: set<string>, live: set<Option<string>>, ghost workers: seq<Worker>)
    returns (a: Action)
    requires w.Valid() && live == LiveWorkspaces(workers, ended)
    modifies w`trace
    ensures w.Valid() && Reads(old(w.trace), w.trace) && (a.Keep? || a.Destroy?)
    ensures a.Destroy? ==> SpriteVerdictOk(w.trace, workers, ended, worker, sprite)
    ensures SpriteJudged(w.trace[|old(w.trace)|..], worker, sprite, ended, live, a.Destroy?)
  {
    hide Sound, LastWorkers, EndedIn, LiveWorkspaces, NothingUnsaved, Reads, Judged, SpriteJudged;
    ghost var start := w.trace;
    ReadsNone(start);
    if worker.workspace in live {
      LiveJudged(worker, sprite, ended, live);
      assert w.trace[|start|..] == [];
      return Keep(sprite.workspace);
    }
    ghost var head: seq<Event> := [];
    if worker.dispatch !in ended {
      var idle := w.Idle(worker.terminal, Some(sprite.environment));
      ReadsOne(start, IdleRead(worker.terminal, Some(sprite.environment), idle));
      head := [IdleRead(worker.terminal, Some(sprite.environment), idle)];
      if idle != Some(true) {
        NotIdleJudged(w.trace[|start|..], worker, sprite, ended, live, idle);
        return Keep(sprite.workspace);
      }
    }
    ghost var asked := w.trace;
    assert asked == start + head;
    var found := w.SpriteCheckout(sprite);
    ReadsOne(asked, SpriteRead(sprite, found));
    ReadsAgain(start, asked, w.trace);
    if !found.Found? {
      SpriteJudgedIs(w.trace[|start|..], head, worker, sprite, ended, live, found, [], false);
      return Keep(sprite.workspace);
    }
    ghost var before := w.trace;
    var held := Unsaved(w, found.checkout);
    ReadsAgain(start, before, w.trace);
    ReadsExtend(before, w.trace);
    assert w.trace == before + w.trace[|before|..];
    SpriteJudgedIs(w.trace[|start|..], head, worker, sprite, ended, live, found, w.trace[|before|..], !held);
    if held {
      return Keep(sprite.workspace);
    }
    Kept(before, w.trace);
    assert SpriteSaved(w.trace, sprite, found.checkout);
    a := Destroy(sprite.workspace);
  }

  lemma LiveJudged(f: Worker, sprite: Sprite, ended: set<string>, live: set<Option<string>>)
    requires f.workspace in live
    ensures SpriteJudged([], f, sprite, ended, live, false)
  {
  }

  lemma NotIdleJudged(asked: seq<Event>, f: Worker, sprite: Sprite, ended: set<string>, live: set<Option<string>>, idle: Option<bool>)
    requires f.workspace !in live && f.dispatch !in ended && idle != Some(true)
    requires asked == [IdleRead(f.terminal, Some(sprite.environment), idle)]
    ensures SpriteJudged(asked, f, sprite, ended, live, false)
  {
  }

  lemma SpriteJudgedIs(asked: seq<Event>, head: seq<Event>, f: Worker, sprite: Sprite, ended: set<string>, live: set<Option<string>>,
                       found: CheckoutAnswer, more: seq<Event>, destroy: bool)
    requires f.workspace !in live && asked == head + [SpriteRead(sprite, found)] + more
    requires head == if f.dispatch in ended then [] else [IdleRead(f.terminal, Some(sprite.environment), Some(true))]
    requires if found.Found? then Judged(more, found.checkout, destroy) else more == [] && !destroy
    ensures SpriteJudged(asked, f, sprite, ended, live, destroy)
  {
    assert SpriteAsked(asked, head, sprite, destroy);
    hide SpriteAsked, Judged;
    var idle := Some(true);
    assert if f.dispatch !in ended && idle != Some(true) then asked == [IdleRead(f.terminal, Some(sprite.environment), idle)] && !destroy
      else SpriteAsked(asked, if f.dispatch in ended then [] else [IdleRead(f.terminal, Some(sprite.environment), idle)], sprite, destroy);
  }

  /** reap: destroys the Sprite unless cleanup is paused or its terminal woke up. */
  method Reap(w: World, a: Action, worker: Worker, sprite: Sprite, ended: set<string>) returns (done: Action)
    requires w.Valid() && w.ended == ended
    requires a.Destroy? ==> SpriteVerdictOk(w.trace, w.workers, ended, worker, sprite) && Hosting(w.trace, w.workers, ended, worker, sprite)
    modifies w`trace
    ensures w.Valid() && Extends(old(w.trace), w.trace)
    ensures a.Destroy? ==> Destroyed(w.trace[|old(w.trace)|..], worker, sprite, ended)
  {
    hide Sound, OpOk, LiveWorkspaces, SettledSet, SpriteVerdictOk, Hosting, LastWorkers, EndedIn, Destroyed;
    if !a.Destroy? {
      return a;
    }
    ghost var start := w.trace;
    var held := w.Held();
    if held {
      GivenUp(start, w.trace, worker, sprite, ended);
      return Skip(sprite.workspace);
    }
    if worker.dispatch !in ended {
      var idle := w.Idle(worker.terminal, Some(sprite.environment));
      if idle != Some(true) {
        GivenUp(start, w.trace, worker, sprite, ended);
        return Keep(sprite.workspace);
      }
    }
    held := w.Held();
    if held {
      GivenUp(start, w.trace, worker, sprite, ended);
      return Skip(sprite.workspace);
    }
    DestroyFollows(start, w.trace, worker, sprite);
    ghost var ready := w.trace;
    done := DestroyNow(w, sprite);
    ExtendsAgain(start, ready, w.trace);
    DestroyedSince(start, ready, w.trace, worker, sprite, ended);
  }

  /** The last answer was a pause, or that the terminal is not idle any more. */
  lemma GivenUp(start: seq<Event>, tr: seq<Event>, f: Worker, sprite: Sprite, ended: set<string>)
    requires Extends(start, tr) && |start| < |tr|
    requires var last := tr[|tr| - 1];
      last == PauseRead(true)
      || (f.dispatch !in ended && last.IdleRead? && last.terminal == f.terminal && last.env == Some(sprite.environment) && last.idle != Some(true))
    ensures Destroyed(tr[|start|..], f, sprite, ended)
  {
    SeenAt(tr, |start|, |tr| - 1);
    var last := tr[|tr| - 1];
    if last.IdleRead? {
      assert last.idle == None || last.idle == Some(false) by { if last.idle.Some? { assert !last.idle.value; } }
    }
  }

  lemma DestroyedSince(start: seq<Event>, ready: seq<Event>, tr: seq<Event>, f: Worker, sprite: Sprite, ended: set<string>)
    requires Extends(start, ready) && Extends(ready, tr)
    requires tr[|ready|..] == [DestroyOp(sprite, true)]
      || exists kept :: tr[|ready|..] == [DestroyOp(sprite, false), ForgetOp(sprite.environment, kept)]
    ensures Extends(start, tr) && Destroyed(tr[|start|..], f, sprite, ended)
  {
    ExtendsAgain(start, ready, tr);
    SeenAt(tr, |start|, |ready|);
    assert tr[|ready|] == tr[|ready|..][0];
    if tr[|ready|] == DestroyOp(sprite, false) {
      assert tr[|ready| + 1] == tr[|ready|..][1];
      SeenAt(tr, |start|, |ready| + 1);
    }
  }

  /** The Sprite itself, and then its Orca environment. */
  method DestroyNow(w: World, sprite: Sprite) returns (done: Action)
    requires w.Valid() && OpOk(w.trace, DestroyOp(sprite, false))
    modifies w`trace
    ensures w.Valid() && Extends(old(w.trace), w.trace)
    ensures w.trace[|old(w.trace)|..] == [DestroyOp(sprite, true)]
      || exists kept :: w.trace[|old(w.trace)|..] == [DestroyOp(sprite, false), ForgetOp(sprite.environment, kept)]
  {
    hide Sound, OpOk, LastWorkers, EndedIn;
    var refused := w.Destroy(sprite);
    if refused {
      return Keep(sprite.workspace);
    }
    ForgetFollows(w.trace, sprite);
    var kept := w.Forget(sprite.environment);
    done := DidDestroy(sprite.workspace);
  }

  /** A settled, listed worker whose workspace and terminal the Sprite was recorded under. */
  ghost predicate Hosting(tr: seq<Event>, workers: seq<Worker>, ended: set<string>, w: Worker, sprite: Sprite) {
    && w in workers && w.dispatch in SettledSet(workers, ended) && w.workspace.Some?
    && exists e :: e in tr && Hosts(e, w, sprite)
  }

  lemma DestroyFollows(start: seq<Event>, tr: seq<Event>, w: Worker, sprite: Sprite)
    requires Extends(start, tr) && JustUnpaused(tr) && |tr| >= |start| + 2
    requires SpriteVerdictOk(start, LastWorkers(tr), EndedIn(tr), w, sprite) && Hosting(start, LastWorkers(tr), EndedIn(tr), w, sprite)
    requires w.dispatch in EndedIn(tr) || tr[|tr| - 2] == IdleRead(w.terminal, Some(sprite.environment), Some(true))
    ensures OpOk(tr, DestroyOp(sprite, false))
  {
    hide LiveWorkspaces, SettledSet, LastWorkers, EndedIn, NothingUnsaved, Hosts;
    Kept(start, tr);
    var before := tr[..|tr| - 2];
    assert before[..|start|] == start;
    Kept(start, before);
    var c :| SpriteSaved(start, sprite, c);
    UnsavedKept(start, tr, c);
    assert HostedOn(tr, w, sprite) && SpriteSaved(tr, sprite, c) && SpriteQuiet(tr, w, sprite);
  }

  lemma UnsavedKept(start: seq<Event>, tr: seq<Event>, c: Checkout)
    requires Extends(start, tr) && NothingUnsaved(start, c)
    ensures NothingUnsaved(tr, c)
  {
    Kept(start, tr);
  }

  lemma ForgetFollows(tr: seq<Event>, sprite: Sprite)
    requires tr != [] && tr[|tr| - 1] == DestroyOp(sprite, false)
    ensures OpOk(tr, ForgetOp(sprite.environment, false))
  {
  }

  // ----- the pass

  /** A pass under way: the workers it listed, the dispatches it ended, and no operation in a dry run. */
  ghost predicate Going(w: World, workers: seq<Worker>, ended: set<string>, dry: bool)
    reads w
  {
    w.Valid() && w.workers == workers && if dry then NoOpFrom(w.trace, 0) else w.ended == ended
  }

  ghost predicate AllOk(tr: seq<Event>, workers: seq<Worker>, ended: set<string>, verdicts: seq<Action>) {
    forall v :: v in verdicts ==> VerdictOk(tr, workers, ended, v)
  }

  lemma AllKept(tr: seq<Event>, tr': seq<Event>, workers: seq<Worker>, ended: set<string>, verdicts: seq<Action>)
    requires Extends(tr, tr') && AllOk(tr, workers, ended, verdicts)
    ensures AllOk(tr', workers, ended, verdicts)
  {
    hide VerdictOk, Extends;
    forall v | v in verdicts
      ensures VerdictOk(tr', workers, ended, v)
    {
      VerdictKept(tr, tr', workers, ended, v);
    }
  }

  lemma ClosingKept(tr: seq<Event>, tr': seq<Event>, workers: seq<Worker>, ended: set<string>, closing: map<string, Closing>)
    requires Extends(tr, tr') && ClosingOk(tr, workers, ended, closing)
    ensures ClosingOk(tr', workers, ended, closing)
  {
    hide LiveTerminals;
    Kept(tr, tr');
  }

  lemma QuietReads(tr: seq<Event>, tr': seq<Event>)
    requires Reads(tr, tr') && NoOpFrom(tr, 0)
    ensures NoOpFrom(tr', 0)
  {
    forall m | 0 <= m < |tr'|
      ensures !IsOp(tr'[m])
    {
      if m < |tr| { assert tr'[m] == tr'[..|tr|][m] == tr[m]; }
    }
  }

  /** act: applies a verdict, or in a dry run only reports it. */
  method Act(w: World, a: Action, ghost workers: seq<Worker>, ghost ended: set<string>, dry: bool) returns (done: Action)
    requires Going(w, workers, ended, dry) && VerdictOk(w.trace, workers, ended, a)
    modifies w`trace
    ensures Going(w, workers, ended, dry) && Extends(old(w.trace), w.trace)
    ensures !dry ==> Carried(w.trace[|old(w.trace)|..], a) && !done.Remove?
    ensures !dry && done.DidRemove? && !a.DidRemove? ==> a == Remove(done.plan) && Requested(w.trace[|old(w.trace)|..], done.plan.path, done.plan.env)
    ensures dry ==> done == a
  {
    hide VerdictOk, Sound, LastWorkers, EndedIn, Carried, Requested;
    if dry {
      return a;
    }
    done := Apply(w, a);
  }

  /** Applies a list of verdicts in turn. */
  method ActAll(w: World, verdicts: seq<Action>, ghost workers: seq<Worker>, ghost ended: set<string>, dry: bool) returns (done: seq<Action>)
    requires Going(w, workers, ended, dry) && AllOk(w.trace, workers, ended, verdicts)
    modifies w`trace
    ensures Going(w, workers, ended, dry) && Extends(old(w.trace), w.trace)
    ensures !dry ==> AllCarried(w.trace, verdicts)
    ensures dry ==> done == verdicts
  {
    hide Going, VerdictOk, Extends, Carried, Slice;
    done := [];
    SameTrace(w.trace);
    for i := 0 to |verdicts|
      invariant Going(w, workers, ended, dry) && Extends(old(w.trace), w.trace)
      invariant AllOk(w.trace, workers, ended, verdicts)
      invariant !dry ==> AllCarried(w.trace, verdicts[..i])
      invariant dry ==> done == verdicts[..i]
    {
      ghost var before := w.trace;
      var d := Act(w, verdicts[i], workers, ended, dry);
      AllKept(before, w.trace, workers, ended, verdicts);
      if !dry { OneMoreCarried(before, w.trace, verdicts, i); }
      ExtendsAgain(old(w.trace), before, w.trace);
      done := done + [d];
    }
    assert verdicts[..|verdicts|] == verdicts;
  }

  lemma OneMoreCarried(tr: seq<Event>, tr': seq<Event>, verdicts: seq<Action>, i: nat)
    requires i < |verdicts| && Extends(tr, tr') && AllCarried(tr, verdicts[..i]) && Carried(tr'[|tr|..], verdicts[i])
    ensures AllCarried(tr', verdicts[..i + 1])
  {
    AllCarriedKept(tr, tr', verdicts[..i]);
    SliceParts(tr, Since(tr, tr'), []);
    CarriedWithin(tr', Since(tr, tr'), verdicts[i]);
    hide Carried;
    assert verdicts[..i + 1] == verdicts[..i] + [verdicts[i]];
  }

  // ----- ending lanes

  /** The dispatch was to be stopped, and abandoned if it was fenced or its host down, unless cleanup was paused. */
  predicate StopDealt(tr: seq<Event>, d: string) {
    PauseRead(true) in tr || exists e :: e in tr && e.StopOp? && e.dispatch == d && (e.stopped.Fenced? || e.stopped.HostDown? ==> AbandonTried(tr, d))
  }

  predicate AbandonTried(tr: seq<Event>, d: string) {
    exists e :: e in tr && e.AbandonOp? && e.dispatch == d
  }

  predicate EndedWith(tr: seq<Event>, d: string, detail: string) {
    StopOp(d, State(detail)) in tr || AbandonOp(d, State(detail)) in tr
  }

  lemma StopDealtKept(tr: seq<Event>, tr': seq<Event>)
    requires Extends(tr, tr')
    ensures forall d :: StopDealt(tr, d) ==> StopDealt(tr', d)
    ensures forall d, detail :: EndedWith(tr, d, detail) ==> EndedWith(tr', d, detail)
  {
    Kept(tr, tr');
    forall d | AbandonTried(tr, d)
      ensures AbandonTried(tr', d)
    {
      var e :| e in tr && e.AbandonOp? && e.dispatch == d;
      assert e in tr';
    }
    hide AbandonTried;
  }

  /** stop: fences one dispatch, or abandons it when it is already fenced or its host is down. */
  method StopLane(w: World, dispatch: string, dry: bool, down: set<string>) returns (done: Action, detail: Option<string>)
    requires w.Valid()
    modifies w`trace, w`ended
    ensures w.Valid() && Extends(old(w.trace), w.trace)
    ensures dry ==> w.trace == old(w.trace) && detail == Some("")
    ensures !dry ==> w.ended == old(w.ended) + if detail.Some? then {dispatch} else {}
    ensures !dry ==> StopDealt(w.trace, dispatch) && (detail.Some? ==> EndedWith(w.trace, dispatch, detail.value))
  {
    hide Sound, LastWorkers, EndedIn;
    if dry {
      return if dispatch in down then Abandon(dispatch) else Stop(dispatch), Some("");
    }
    var held := w.Held();
    assert w.trace[|w.trace| - 1] == PauseRead(held);
    if held {
      return Skip(dispatch), None;
    }
    var answer := w.Stop(dispatch);
    assert w.trace[|w.trace| - 1] == StopOp(dispatch, answer);
    ghost var stopped := w.trace;
    var hostDown := answer.HostDown?;
    if answer.Fenced? || answer.HostDown? {
      answer := w.Abandon(dispatch);
      assert w.trace[|w.trace| - 1] == AbandonOp(dispatch, answer);
      Kept(stopped, w.trace);
    }
    if !answer.State? {
      return Keep(dispatch), None;
    }
    return if hostDown then DidAbandon(dispatch) else DidStop(dispatch), Some(answer.detail);
  }

  method StopAll(w: World, ending: seq<string>, dry: bool) returns (done: seq<Action>, ended: map<string, string>)
    requires w.Valid() && w.ended == {} && NoOpFrom(w.trace, 0)
    modifies w
    ensures w.Valid() && (if dry then NoOpFrom(w.trace, 0) else w.ended == ended.Keys) && Extends(old(w.trace), w.trace)
    ensures StopsDone(w.trace, ending, ended, dry)
  {
    hide Sound, LastWorkers, EndedIn, StopDealt, EndedWith;
    done, ended := [], map[];
    var down: set<string> := {};
    if dry && ending != [] {
      var listed := w.ListWorkers();
      down := set x | x in listed && x.hostGone :: x.dispatch;
    }
    for i := 0 to |ending|
      invariant w.Valid() && (if dry then NoOpFrom(w.trace, 0) else w.ended == ended.Keys) && Extends(old(w.trace), w.trace)
      invariant StopsDone(w.trace, ending[..i], ended, dry)
    {
      ghost var before := w.trace;
      var d, detail := StopLane(w, ending[i], dry, down);
      StopDealtKept(before, w.trace);
      ExtendsAgain(old(w.trace), before, w.trace);
      assert ending[..i + 1] == ending[..i] + [ending[i]];
      done := done + [d];
      if detail.Some? {
        ended := ended[ending[i] := detail.value];
      }
    }
    assert ending[..|ending|] == ending;
  }

  /** Every lane to be ended was dealt with; a dry run takes each as ended. */
  ghost predicate StopsDone(tr: seq<Event>, ending: seq<string>, ended: map<string, string>, dry: bool) {
    && (forall d :: d in ended ==> d in ending)
    && (forall d :: d in ending ==> if dry then d in ended && ended[d] == "" else StopDealt(tr, d))
    && (!dry ==> forall d :: d in ended ==> EndedWith(tr, d, ended[d]))
  }

  // ----- terminals

  ghost predicate FinishedOnly(workers: seq<Worker>, ended: set<string>, finished: seq<Worker>) {
    forall f :: f in finished ==> f in workers && f.dispatch in SettledSet(workers, ended)
  }

  /** A listed worker in scope whose dispatch is settled or ended. */
  predicate Due(f: Worker, workers: seq<Worker>, ended: set<string>, scope: set<string>) {
    f in workers && f.dispatch in SettledSet(workers, ended) && (scope == {} || f.dispatch in scope)
  }

  method Finished(workers: seq<Worker>, ended: set<string>, scope: set<string>) returns (finished: seq<Worker>)
    ensures FinishedOnly(workers, ended, finished)
    ensures forall f :: f in finished <==> Due(f, workers, ended, scope)
  {
    hide SettledSet;
    finished := [];
    for i := 0 to |workers|
      invariant FinishedOnly(workers, ended, finished)
      invariant forall f :: f in finished <==> f in workers[..i] && Due(f, workers, ended, scope)
    {
      var f := workers[i];
      if f.dispatch in SettledSet(workers, ended) && (scope == {} || f.dispatch in scope) {
        finished := finished + [f];
      }
    }
  }

  method TerminalVerdicts(w: World, finished: seq<Worker>, workers: seq<Worker>, ended: map<string, string>, dry: bool) returns (verdicts: seq<Action>)
    requires Going(w, workers, ended.Keys, dry) && FinishedOnly(workers, ended.Keys, finished)
    modifies w`trace
    ensures Going(w, workers, ended.Keys, dry) && Extends(old(w.trace), w.trace)
    ensures AllOk(w.trace, workers, ended.Keys, verdicts)
    ensures forall v :: v in verdicts ==> v.Keep? || v.Release? || v.End? || v.Close?
    ensures AllGot(w.trace, finished, LiveTerminals(workers, ended.Keys), ended, verdicts)
    ensures OnlyGot(w.trace, finished, LiveTerminals(workers, ended.Keys), ended, verdicts)
  {
    hide Sound, VerdictOk, Extends, Reads, NoOpFrom, LiveTerminals, SettledSet, TerminalJudged, Got;
    verdicts := [];
    SameTrace(w.trace);
    ghost var live := LiveTerminals(workers, ended.Keys);
    assert finished[..0] == [];
    for i := 0 to |finished|
      invariant Going(w, workers, ended.Keys, dry) && Extends(old(w.trace), w.trace)
      invariant AllOk(w.trace, workers, ended.Keys, verdicts)
      invariant forall v :: v in verdicts ==> v.Keep? || v.Release? || v.End? || v.Close?
      invariant AllGot(w.trace, finished[..i], live, ended, verdicts) && OnlyGot(w.trace, finished, live, ended, verdicts)
    {
      assert finished[i] in finished;
      ghost var before := w.trace;
      var a := TerminalAction(w, finished[i], LiveTerminals(workers, ended.Keys), ended, workers);
      if dry { QuietReads(before, w.trace); }
      ReadsExtend(before, w.trace);
      ExtendsAgain(old(w.trace), before, w.trace);
      AllKept(before, w.trace, workers, ended.Keys, verdicts);
      GotOne(before, w.trace, finished, i, live, ended, verdicts, a);
      if a.Some? {
        verdicts := verdicts + [a.value];
      }
    }
    assert finished[..|finished|] == finished;
  }

  /** Every worker's terminal got its verdict, and there are no others. */
  ghost predicate AllGot(tr: seq<Event>, finished: seq<Worker>, live: set<string>, ended: map<string, string>, verdicts: seq<Action>) {
    forall f :: f in finished ==> exists a :: Got(tr, f, live, ended, a) && (a.Some? ==> a.value in verdicts)
  }

  ghost predicate OnlyGot(tr: seq<Event>, finished: seq<Worker>, live: set<string>, ended: map<string, string>, verdicts: seq<Action>) {
    forall v :: v in verdicts ==> exists f :: f in finished && Got(tr, f, live, ended, Some(v))
  }

  lemma AllGotKept(tr: seq<Event>, tr': seq<Event>, finished: seq<Worker>, live: set<string>, ended: map<string, string>, verdicts: seq<Action>, more: seq<Action>)
    requires Extends(tr, tr') && AllGot(tr, finished, live, ended, verdicts)
    ensures AllGot(tr', finished, live, ended, verdicts + more)
  {
    hide Got, Extends;
    PrefixSlice(tr, tr');
    forall f | f in finished
      ensures exists a :: Got(tr', f, live, ended, a) && (a.Some? ==> a.value in verdicts + more)
    {
      var a :| Got(tr, f, live, ended, a) && (a.Some? ==> a.value in verdicts);
      GotKept(tr, tr', f, live, ended, a);
    }
  }

  lemma OnlyGotKept(tr: seq<Event>, tr': seq<Event>, finished: seq<Worker>, live: set<string>, ended: map<string, string>, verdicts: seq<Action>)
    requires Extends(tr, tr') && OnlyGot(tr, finished, live, ended, verdicts)
    ensures OnlyGot(tr', finished, live, ended, verdicts)
  {
    hide Got, Extends;
    PrefixSlice(tr, tr');
    forall v | v in verdicts
      ensures exists f :: f in finished && Got(tr', f, live, ended, Some(v))
    {
      var f :| f in finished && Got(tr, f, live, ended, Some(v));
      GotKept(tr, tr', f, live, ended, Some(v));
    }
  }

  lemma GotOne(tr: seq<Event>, tr': seq<Event>, finished: seq<Worker>, i: nat, live: set<string>, ended: map<string, string>, verdicts: seq<Action>, a: Option<Action>)
    requires Extends(tr, tr') && i < |finished| && TerminalJudged(tr'[|tr|..], finished[i], live, ended, a)
    requires AllGot(tr, finished[..i], live, ended, verdicts) && OnlyGot(tr, finished, live, ended, verdicts)
    ensures var more := if a.Some? then [a.value] else [];
      AllGot(tr', finished[..i + 1], live, ended, verdicts + more) && OnlyGot(tr', finished, live, ended, verdicts + more)
    ensures a.None? ==> AllGot(tr', finished[..i + 1], live, ended, verdicts) && OnlyGot(tr', finished, live, ended, verdicts)
  {
    var more := if a.Some? then [a.value] else [];
    SliceParts(tr, Since(tr, tr'), []);
    assert Got(tr', finished[i], live, ended, a);
    hide TerminalJudged, Got, Extends;
    AllGotKept(tr, tr', finished[..i], live, ended, verdicts, more);
    OnlyGotKept(tr, tr', finished, live, ended, verdicts);
    assert finished[..i + 1] == finished[..i] + [finished[i]] && finished[i] in finished;
    assert a.None? ==> verdicts + more == verdicts;
  }

  /** closing: the terminals to be closed, the last verdict for each. */
  method Closings(verdicts: seq<Action>, ghost tr: seq<Event>, ghost workers: seq<Worker>, ghost ended: set<string>) returns (closing: map<string, Closing>)
    requires AllOk(tr, workers, ended, verdicts)
    ensures ClosingOk(tr, workers, ended, closing)
    ensures forall t :: t in closing ==> closing[t].ending || VerdictOk(tr, workers, ended, Close(closing[t]))
    ensures forall v :: v in verdicts && (v.End? || v.Close?) ==> v.closing.terminal in closing
    ensures forall t :: t in closing ==> (if closing[t].ending then End(closing[t]) else Close(closing[t])) in verdicts
  {
    hide MayClose;
    closing := map[];
    for i := 0 to |verdicts|
      invariant ClosingOk(tr, workers, ended, closing)
      invariant forall t :: t in closing ==> closing[t].ending || VerdictOk(tr, workers, ended, Close(closing[t]))
      invariant forall v :: v in verdicts[..i] && (v.End? || v.Close?) ==> v.closing.terminal in closing
      invariant forall t :: t in closing ==> (if closing[t].ending then End(closing[t]) else Close(closing[t])) in verdicts
    {
      var v := verdicts[i];
      assert VerdictOk(tr, workers, ended, v);
      if v.End? || v.Close? {
        closing := closing[v.closing.terminal := v.closing];
      }
    }
  }

  /** The verdicts acted on before worktrees are looked at. */
  function FirstActs(verdicts: seq<Action>, closing: map<string, Closing>): (acts: seq<Action>)
    ensures forall a :: a in acts ==> a in verdicts
    ensures forall v :: v in verdicts && (Target(v) !in closing || v.End?) ==> v in acts
  {
    if verdicts == [] then []
    else (if Target(verdicts[0]) !in closing || verdicts[0].End? then [verdicts[0]] else []) + FirstActs(verdicts[1..], closing)
  }

  // ----- worktrees

  ghost predicate ReadHere(tr: seq<Event>, workers: seq<Worker>, ended: set<string>, checkouts: seq<Checkout>) {
    forall c :: c in checkouts ==>
      CheckoutRead(c.path, c.environment, Found(c)) in tr && (c.environment, Some(c.path)) !in LiveWorktrees(workers, ended)
  }

  /** The worktrees of settled workers that nobody unsettled uses and no Sprite stands for. */
  function Trees(finished: seq<Worker>, sprites: map<(string, string), Sprite>, live: set<(Env, Option<string>)>): set<(Env, Option<string>)> {
    (set f | f in finished && f.worktree.Some? && !OnSprite(f, sprites) :: (f.environment, f.worktree)) - live
  }

  predicate OnSprite(f: Worker, sprites: map<(string, string), Sprite>) {
    f.workspace.Some? && exists k :: k in sprites && k.0 == f.workspace.value
  }

  /** Reads every candidate worktree: those found, and local ones whose directory is gone. */
  method ReadTrees(w: World, trees: set<(Env, Option<string>)>, ghost workers: seq<Worker>, ghost ended: set<string>, dry: bool)
    returns (checkouts: seq<Checkout>, drops: seq<Action>, kept: seq<Action>)
    requires Going(w, workers, ended, dry) && trees !! LiveWorktrees(workers, ended)
    modifies w`trace
    ensures Going(w, workers, ended, dry) && Extends(old(w.trace), w.trace)
    ensures ReadHere(w.trace, workers, ended, checkouts) && AllOk(w.trace, workers, ended, drops)
    ensures forall tree :: tree in trees && tree.1.Some? ==> TreeRead(w.trace, tree.1.value, tree.0, checkouts, drops)
  {
    hide Sound, Reads, NoOpFrom, LiveWorktrees, MayClose, Planned, Extends, LastWorkers, EndedIn;
    checkouts, drops, kept := [], [], [];
    SameTrace(w.trace);
    var todo := trees;
    while todo != {}
      invariant todo <= trees && Going(w, workers, ended, dry) && Extends(old(w.trace), w.trace)
      invariant ReadHere(w.trace, workers, ended, checkouts) && AllOk(w.trace, workers, ended, drops)
      invariant forall tree :: tree in trees - todo && tree.1.Some? ==> TreeRead(w.trace, tree.1.value, tree.0, checkouts, drops)
      decreases |todo|
    {
      var tree :| tree in todo;
      todo := todo - {tree};
      if tree.1.Some? {
        ghost var before := w.trace;
        var found, gone := ReadTree(w, tree.1.value, tree.0);
        if dry { QuietReads(before, w.trace); }
        ReadsExtend(before, w.trace);
        ExtendsAgain(old(w.trace), before, w.trace);
        ReadHereKept(before, w.trace, workers, ended, checkouts);
        AllKept(before, w.trace, workers, ended, drops);
        ghost var checkouts0, drops0 := checkouts, drops;
        if found.Found? {
          checkouts := checkouts + [found.checkout];
        } else if gone {
          DropOk(w.trace, workers, ended, tree.1.value);
          drops := drops + [Drop(tree.1.value)];
        } else if found.Unreadable? {
          kept := kept + [Keep(tree.1.value)];
        }
        forall other | other in trees - todo - {tree} && other.1.Some?
          ensures TreeRead(w.trace, other.1.value, other.0, checkouts, drops)
        {
          TreeReadKept(before, w.trace, other.1.value, other.0, checkouts0, drops0, checkouts, drops);
        }
        assert TreeRead(w.trace, tree.1.value, tree.0, checkouts, drops);
      }
    }
  }

  /** A worktree was read, and is to be looked at if found, and dropped if gone and still listed. */
  ghost predicate TreeRead(tr: seq<Event>, path: string, env: Env, checkouts: seq<Checkout>, drops: seq<Action>) {
    exists found :: CheckoutRead(path, env, found) in tr &&
      match found
      case Found(c) => c.path == path && c.environment == env && c in checkouts
      case Missing => env == None ==> RegisteredRead(path, false) in tr || (RegisteredRead(path, true) in tr && Drop(path) in drops)
      case Unreadable => true
  }

  lemma TreeReadKept(tr: seq<Event>, tr': seq<Event>, path: string, env: Env, checkouts: seq<Checkout>, drops: seq<Action>,
                     checkouts': seq<Checkout>, drops': seq<Action>)
    requires Extends(tr, tr') && TreeRead(tr, path, env, checkouts, drops)
    requires (forall c :: c in checkouts ==> c in checkouts') && (forall d :: d in drops ==> d in drops')
    ensures TreeRead(tr', path, env, checkouts', drops')
  {
    Kept(tr, tr');
  }

  lemma DropOk(tr: seq<Event>, workers: seq<Worker>, ended: set<string>, path: string)
    requires (None, Some(path)) !in LiveWorktrees(workers, ended)
    requires CheckoutRead(path, None, Missing) in tr && RegisteredRead(path, true) in tr
    ensures VerdictOk(tr, workers, ended, Drop(path))
  {
    hide LiveWorktrees;
  }

  lemma ReadHereKept(tr: seq<Event>, tr': seq<Event>, workers: seq<Worker>, ended: set<string>, checkouts: seq<Checkout>)
    requires Extends(tr, tr') && ReadHere(tr, workers, ended, checkouts)
    ensures ReadHere(tr', workers, ended, checkouts)
  {
    hide LiveWorktrees;
    Kept(tr, tr');
  }

  method ReadTree(w: World, path: string, env: Env) returns (found: CheckoutAnswer, gone: bool)
    requires w.Valid()
    modifies w`trace
    ensures w.Valid() && Reads(old(w.trace), w.trace)
    ensures found.Found? ==> found.checkout.path == path && found.checkout.environment == env
    ensures CheckoutRead(path, env, found) in w.trace
    ensures gone ==> found == Missing && env == None && RegisteredRead(path, true) in w.trace
    ensures found == Missing && env == None && !gone ==> RegisteredRead(path, false) in w.trace
  {
    hide Sound, LastWorkers, EndedIn;
    found := w.CheckoutAt(path, env);
    gone := false;
    if found == Missing && env == None {
      gone := w.Registered(path);
    }
  }

  method RemoveTrees(w: World, checkouts: seq<Checkout>, closing: map<string, Closing>, ghost workers: seq<Worker>, ghost ended: set<string>, dry: bool)
    returns (done: seq<Action>)
    requires Going(w, workers, ended, dry) && ReadHere(w.trace, workers, ended, checkouts) && ClosingOk(w.trace, workers, ended, closing)
    modifies w`trace
    ensures Going(w, workers, ended, dry) && Extends(old(w.trace), w.trace)
    ensures AllDealt(w.trace, checkouts, closing, dry)
    ensures !dry ==> forall t :: t in Stopped(done) ==> RemovedAlong(w.trace, t)
  {
    hide Sound, Reads, NoOpFrom, LiveWorktrees, MayClose, Planned, Extends, ClosingOk, VerdictOk, LastWorkers, EndedIn, TreeJudged, Carried, RemovedAlong, Targets;
    done := [];
    SameTrace(w.trace);
    for i := 0 to |checkouts|
      invariant Going(w, workers, ended, dry) && Extends(old(w.trace), w.trace)
      invariant ReadHere(w.trace, workers, ended, checkouts) && ClosingOk(w.trace, workers, ended, closing)
      invariant AllDealt(w.trace, checkouts[..i], closing, dry)
      invariant !dry ==> forall t :: t in Stopped(done) ==> RemovedAlong(w.trace, t)
    {
      ghost var before := w.trace;
      assert checkouts[i] in checkouts;
      var a := WorktreeAction(w, checkouts[i], closing, workers, ended);
      ghost var read := w.trace;
      if dry { QuietReads(before, read); }
      ReadsExtend(before, read);
      var d := Act(w, a, workers, ended, dry);
      ExtendsAgain(before, read, w.trace);
      ExtendsAgain(old(w.trace), before, w.trace);
      ReadHereKept(before, w.trace, workers, ended, checkouts);
      ClosingKept(before, w.trace, workers, ended, closing);
      DealtOne(before, read, w.trace, checkouts, i, closing, dry, a);
      if !dry {
        ClosingNames(w.trace, workers, ended, closing);
        StoppedOne(before, read, w.trace, checkouts[i], closing, a, d, done);
      }
      done := done + [d];
    }
    assert checkouts[..|checkouts|] == checkouts;
  }

  lemma ClosingNames(tr: seq<Event>, workers: seq<Worker>, ended: set<string>, closing: map<string, Closing>)
    requires ClosingOk(tr, workers, ended, closing)
    ensures forall t :: t in closing ==> closing[t].terminal == t
  {
  }

  ghost predicate AllDealt(tr: seq<Event>, checkouts: seq<Checkout>, closing: map<string, Closing>, dry: bool) {
    forall c :: c in checkouts ==> TreeDealt(tr, c, closing, dry)
  }

  lemma AllDealtKept(tr: seq<Event>, tr': seq<Event>, checkouts: seq<Checkout>, closing: map<string, Closing>, dry: bool)
    requires Extends(tr, tr') && AllDealt(tr, checkouts, closing, dry)
    ensures AllDealt(tr', checkouts, closing, dry)
  {
    hide TreeDealt, Extends;
    PrefixSlice(tr, tr');
    forall c | c in checkouts
      ensures TreeDealt(tr', c, closing, dry)
    {
      TreeDealtKept(tr, tr', c, closing, dry);
    }
  }

  lemma DealtOne(before: seq<Event>, read: seq<Event>, tr: seq<Event>, checkouts: seq<Checkout>, i: nat, closing: map<string, Closing>, dry: bool, a: Action)
    requires Extends(before, read) && Extends(read, tr) && i < |checkouts| && AllDealt(before, checkouts[..i], closing, dry)
    requires TreeJudged(read[|before|..], checkouts[i], closing, a) && (dry || Carried(tr[|read|..], a))
    ensures AllDealt(tr, checkouts[..i + 1], closing, dry)
  {
    hide TreeJudged, Carried;
    ExtendsAgain(before, read, tr);
    AllDealtKept(before, tr, checkouts[..i], closing, dry);
    StretchesOf(before, read, tr);
    if !dry { CarriedWithin(tr, Since(read, tr), a); }
    assert TreeDealt(tr, checkouts[i], closing, dry);
    hide TreeDealt, Slice;
    assert checkouts[..i + 1] == checkouts[..i] + [checkouts[i]];
  }

  /** The terminals that a removal stops were listed in its worktree. */
  lemma StoppedOne(before: seq<Event>, read: seq<Event>, tr: seq<Event>, c: Checkout, closing: map<string, Closing>, a: Action, d: Action, done: seq<Action>)
    requires Extends(before, read) && Extends(read, tr) && TreeJudged(read[|before|..], c, closing, a)
    requires !d.Remove? && (d.DidRemove? ==> a == Remove(d.plan) && Requested(tr[|read|..], d.plan.path, d.plan.env))
    requires forall t :: t in closing ==> closing[t].terminal == t
    requires forall t :: t in Stopped(done) ==> RemovedAlong(before, t)
    ensures forall t :: t in Stopped(done + [d]) ==> RemovedAlong(tr, t)
  {
    hide TreeJudged, Requested, RemovedAlong, Slice;
    ExtendsAgain(before, read, tr);
    StretchesOf(before, read, tr);
    StoppedSplits(done, d);
    forall t | t in Stopped(done) ensures RemovedAlong(tr, t) { RemovedAlongKept(before, tr, t); }
    if d.DidRemove? {
      forall t | t in Targets(d.plan.agents)
        ensures RemovedAlong(tr, t)
      {
        ListedThere(tr, read[|before|..], tr[|read|..], c, closing, d.plan, t);
      }
    }
  }

  lemma {:induction false} StoppedSplits(done: seq<Action>, d: Action)
    ensures Stopped(done + [d]) == Stopped(done) + if d.Remove? || d.DidRemove? then Targets(d.plan.agents) else {}
  {
    if done == [] {
      assert done + [d] == [d] && [d][1..] == [];
    } else {
      assert (done + [d])[1..] == done[1..] + [d];
      StoppedSplits(done[1..], d);
    }
  }

  lemma ListedThere(tr: seq<Event>, asked: seq<Event>, part: seq<Event>, c: Checkout, closing: map<string, Closing>, plan: Removal, t: string)
    requires Slice(tr, asked) && Slice(tr, part) && TreeJudged(asked, c, closing, Remove(plan))
    requires Requested(part, plan.path, plan.env) && t in Targets(plan.agents)
    requires forall x :: x in closing ==> closing[x].terminal == x
    ensures RemovedAlong(tr, t)
  {
    hide TreeJudged, Handles, Targets, Slice;
    var terminals := AgentListed(asked, c, closing, plan, t);
    SliceHas(tr, asked);
    SliceHas(tr, part);
    assert Requested(tr, plan.path, plan.env);
  }

  /** The answers of a decision, and what followed it, are stretches of the trace. */
  lemma StretchesOf(before: seq<Event>, read: seq<Event>, tr: seq<Event>)
    requires Extends(before, read) && Extends(read, tr)
    ensures Slice(tr, read[|before|..]) && Slice(tr, tr[|read|..])
  {
    SliceParts(before, Since(before, read), []);
    SliceParts(read, Since(read, tr), []);
    hide Slice;
    SliceOfSlice(tr, read, Since(before, read));
  }

  lemma AgentListed(asked: seq<Event>, c: Checkout, closing: map<string, Closing>, plan: Removal, t: string) returns (terminals: seq<Terminal>)
    requires TreeJudged(asked, c, closing, Remove(plan)) && t in Targets(plan.agents)
    requires forall x :: x in closing ==> closing[x].terminal == x
    ensures TerminalsRead(plan.path, plan.env, Listed(terminals)) in asked && t in Handles(terminals)
  {
    hide Judged, InUse;
    var list, ms, more, saved :| TreeAnswered(asked, c, closing, Remove(plan), list, ms, more, saved);
    terminals := Terms(list);
    var x :| x in terminals && x.handle in closing && closing[x.handle].terminal == t;
    assert asked[0] == TerminalsRead(plan.path, plan.env, list);
  }

  /** The terminals that removals have stopped, or in a dry run would stop. */
  function Stopped(done: seq<Action>): set<string> {
    if done == [] then {}
    else (if done[0].Remove? || done[0].DidRemove? then Targets(done[0].plan.agents) else {}) + Stopped(done[1..])
  }

  // ----- gc

  /** A Sprite is recorded under the worker's workspace and terminal. */
  predicate Keyed(f: Worker, sprites: map<(string, string), Sprite>) {
    f.workspace.Some? && (f.workspace.value, f.terminal) in sprites
  }

  /** The Sprites of finished workers, each under the last worker recorded for it. */
  method Hosted(finished: seq<Worker>, sprites: map<(string, string), Sprite>, ghost tr: seq<Event>, ghost workers: seq<Worker>, ghost ended: set<string>)
    returns (hosted: map<Sprite, Worker>)
    requires FinishedOnly(workers, ended, finished) && (sprites == map[] || SpritesRead(sprites) in tr)
    ensures forall s :: s in hosted ==> Hosting(tr, workers, ended, hosted[s], s)
    ensures forall f :: f in finished && Keyed(f, sprites) ==> sprites[(f.workspace.value, f.terminal)] in hosted
    ensures forall s :: s in hosted ==> hosted[s] in finished && Keyed(hosted[s], sprites) && sprites[(hosted[s].workspace.value, hosted[s].terminal)] == s
  {
    hide SettledSet;
    hosted := map[];
    for i := 0 to |finished|
      invariant forall s :: s in hosted ==> Hosting(tr, workers, ended, hosted[s], s)
      invariant forall f :: f in finished[..i] && Keyed(f, sprites) ==> sprites[(f.workspace.value, f.terminal)] in hosted
      invariant forall s :: s in hosted ==> hosted[s] in finished && Keyed(hosted[s], sprites) && sprites[(hosted[s].workspace.value, hosted[s].terminal)] == s
    {
      var f := finished[i];
      if f.workspace.Some? && (f.workspace.value, f.terminal) in sprites {
        assert f in finished && Hosts(SpritesRead(sprites), f, sprites[(f.workspace.value, f.terminal)]);
        hosted := hosted[sprites[(f.workspace.value, f.terminal)] := f];
      }
    }
  }

  method ReapAll(w: World, hosted: map<Sprite, Worker>, workers: seq<Worker>, ended: set<string>, dry: bool) returns (done: seq<Action>)
    requires Going(w, workers, ended, dry) && forall s :: s in hosted ==> Hosting(w.trace, workers, ended, hosted[s], s)
    modifies w`trace
    ensures Going(w, workers, ended, dry) && Extends(old(w.trace), w.trace)
    ensures forall s :: s in hosted ==> SpriteDealt(w.trace, hosted[s], s, ended, LiveWorkspaces(workers, ended), dry)
  {
    hide Sound, Reads, NoOpFrom, Extends, Hosting, SpriteVerdictOk, LiveWorkspaces, LastWorkers, EndedIn, SpriteJudged, SpriteDealt, Destroyed;
    done := [];
    SameTrace(w.trace);
    var todo := hosted.Keys;
    while todo != {}
      invariant todo <= hosted.Keys && Going(w, workers, ended, dry) && Extends(old(w.trace), w.trace)
      invariant forall s :: s in hosted ==> Hosting(w.trace, workers, ended, hosted[s], s)
      invariant forall s :: s in hosted && s !in todo ==> SpriteDealt(w.trace, hosted[s], s, ended, LiveWorkspaces(workers, ended), dry)
      decreases |todo|
    {
      var s :| s in todo;
      todo := todo - {s};
      ghost var before := w.trace;
      var a := SpriteAction(w, hosted[s], s, ended, LiveWorkspaces(workers, ended), workers);
      ghost var read := w.trace;
      if dry { QuietReads(before, read); }
      ReadsExtend(before, read);
      HostingKept(before, read, workers, ended, hosted);
      ghost var verdict := a;
      SameTrace(read);
      if !dry {
        a := Reap(w, a, hosted[s], s, ended);
        HostingKept(read, w.trace, workers, ended, hosted);
      }
      ExtendsAgain(before, read, w.trace);
      ExtendsAgain(old(w.trace), before, w.trace);
      SpriteOne(before, read, w.trace, hosted[s], s, ended, LiveWorkspaces(workers, ended), dry, verdict.Destroy?);
      forall x | x in hosted && x !in todo && x != s
        ensures SpriteDealt(w.trace, hosted[x], x, ended, LiveWorkspaces(workers, ended), dry)
      {
        PrefixSlice(before, w.trace);
        SpriteDealtKept(before, w.trace, hosted[x], x, ended, LiveWorkspaces(workers, ended), dry);
      }
      done := done + [a];
    }
  }

  lemma SpriteOne(before: seq<Event>, read: seq<Event>, tr: seq<Event>, f: Worker, sprite: Sprite, ended: set<string>, live: set<Option<string>>, dry: bool, destroy: bool)
    requires Extends(before, read) && Extends(read, tr) && SpriteJudged(read[|before|..], f, sprite, ended, live, destroy)
    requires !dry && destroy ==> Destroyed(tr[|read|..], f, sprite, ended)
    ensures SpriteDealt(tr, f, sprite, ended, live, dry)
  {
    hide SpriteJudged;
    StretchesOf(before, read, tr);
    SliceHas(tr, Since(read, tr));
  }

  lemma HostingKept(tr: seq<Event>, tr': seq<Event>, workers: seq<Worker>, ended: set<string>, hosted: map<Sprite, Worker>)
    requires Extends(tr, tr') && forall s :: s in hosted ==> Hosting(tr, workers, ended, hosted[s], s)
    ensures forall s :: s in hosted ==> Hosting(tr', workers, ended, hosted[s], s)
  {
    hide SettledSet, Hosts;
    Kept(tr, tr');
    forall s | s in hosted
      ensures Hosting(tr', workers, ended, hosted[s], s)
    {
      var e :| e in tr && Hosts(e, hosted[s], s);
      assert e in tr';
    }
  }

  /** The closes that no removal has taken care of. */
  method LateCloses(closing: map<string, Closing>, stopped: set<string>, ghost tr: seq<Event>, ghost workers: seq<Worker>, ghost ended: set<string>)
    returns (acts: seq<Action>)
    requires forall t :: t in closing ==> closing[t].ending || VerdictOk(tr, workers, ended, Close(closing[t]))
    ensures AllOk(tr, workers, ended, acts)
    ensures forall t :: t in closing && t !in stopped && !closing[t].ending ==> Close(closing[t]) in acts
  {
    hide VerdictOk;
    acts := [];
    var todo := closing.Keys;
    while todo != {}
      invariant todo <= closing.Keys && AllOk(tr, workers, ended, acts)
      invariant forall t :: t in closing && t !in todo && t !in stopped && !closing[t].ending ==> Close(closing[t]) in acts
      decreases |todo|
    {
      var t :| t in todo;
      todo := todo - {t};
      if t !in stopped && !closing[t].ending {
        acts := acts + [Close(closing[t])];
      }
    }
  }

  lemma CloseVerdictsKept(tr: seq<Event>, tr': seq<Event>, workers: seq<Worker>, ended: set<string>, closing: map<string, Closing>)
    requires Extends(tr, tr') && forall t :: t in closing ==> closing[t].ending || VerdictOk(tr, workers, ended, Close(closing[t]))
    ensures forall t :: t in closing ==> closing[t].ending || VerdictOk(tr', workers, ended, Close(closing[t]))
  {
    hide VerdictOk, Extends;
    forall t | t in closing
      ensures closing[t].ending || VerdictOk(tr', workers, ended, Close(closing[t]))
    {
      if !closing[t].ending { VerdictKept(tr, tr', workers, ended, Close(closing[t])); }
    }
  }

  /** What becomes of a terminal's verdict by the end of the pass. */
  lemma TerminalFinal(start: seq<Event>, tr: seq<Event>, rest: seq<Worker>, f: Worker, live: set<string>, ended: map<string, string>,
                      closing: map<string, Closing>, verdicts: seq<Action>, acts: seq<Action>, late: seq<Action>, stopped: set<string>, dry: bool)
    requires Extends(start, tr) && AllGot(start, rest, live, ended, verdicts) && f in rest
    requires forall v :: v in verdicts && (v.End? || v.Close?) ==> v.closing.terminal in closing
    requires forall t :: t in closing ==> closing[t].terminal == t && (if closing[t].ending then End(closing[t]) else Close(closing[t])) in verdicts
    requires forall v :: v in verdicts && (Target(v) !in closing || v.End?) ==> v in acts
    requires forall t :: t in closing && t !in stopped && !closing[t].ending ==> Close(closing[t]) in late
    requires !dry ==> AllCarried(tr, acts) && AllCarried(tr, late) && forall t :: t in stopped ==> RemovedAlong(tr, t)
    ensures TerminalDealt(tr, f, live, ended, closing, dry)
  {
    hide Got, Carried, RemovedAlong;
    var a :| Got(start, f, live, ended, a) && (a.Some? ==> a.value in verdicts);
    PrefixSlice(start, tr);
    hide Slice, Extends;
    GotKept(start, tr, f, live, ended, a);
    if !dry && a.Some? && Target(a.value) in closing && !a.value.End? {
      var t := Target(a.value);
      if closing[t].ending {
        assert End(closing[t]) in acts && Carried(tr, End(closing[t]));
      } else if t !in stopped {
        assert Close(closing[t]) in late && Carried(tr, Close(closing[t]));
      }
      assert SomehowClosed(tr, t);
    }
  }

  /** What becomes of a worktree that was read by the end of the pass. */
  lemma TreeFinal(read: seq<Event>, tr: seq<Event>, path: string, env: Env, checkouts: seq<Checkout>, drops: seq<Action>, closing: map<string, Closing>, dry: bool)
    requires Extends(read, tr) && TreeRead(read, path, env, checkouts, drops) && AllDealt(tr, checkouts, closing, dry)
    requires !dry ==> AllCarried(tr, drops)
    ensures TreeDone(tr, path, env, closing, dry)
  {
    hide TreeDealt, Carried;
    Kept(read, tr);
    var found :| CheckoutRead(path, env, found) in read &&
      match found
      case Found(c) => c.path == path && c.environment == env && c in checkouts
      case Missing => env == None ==> RegisteredRead(path, false) in read || (RegisteredRead(path, true) in read && Drop(path) in drops)
      case Unreadable => true;
    assert CheckoutRead(path, env, found) in tr;
  }

  /** Every finished worker's terminal, worktree and Sprite is dealt with, and only their terminals are closed. */
  ghost predicate AllDone(tr: seq<Event>, finished: seq<Worker>, sprites: map<(string, string), Sprite>, workers: seq<Worker>,
                          ended: map<string, string>, closing: map<string, Closing>, dry: bool) {
    && (forall f :: f in finished && !Keyed(f, sprites) ==> TerminalDealt(tr, f, LiveTerminals(workers, ended.Keys), ended, closing, dry))
    && (forall f :: f in finished && f.worktree.Some? && !OnSprite(f, sprites) && (f.environment, f.worktree) !in LiveWorktrees(workers, ended.Keys) ==>
          TreeDone(tr, f.worktree.value, f.environment, closing, dry))
    && (forall f :: f in finished && Keyed(f, sprites) ==> SpriteDone(tr, f, finished, sprites, workers, ended.Keys, dry))
    && (forall t :: t in closing ==> closing[t].terminal == t && ClosedFor(tr, closing[t], finished, workers, ended))
  }

  /** The worker's Sprite is dealt with, for the last worker that it is recorded for. */
  ghost predicate SpriteDone(tr: seq<Event>, f: Worker, finished: seq<Worker>, sprites: map<(string, string), Sprite>, workers: seq<Worker>, ended: set<string>, dry: bool)
    requires Keyed(f, sprites)
  {
    var sprite := sprites[(f.workspace.value, f.terminal)];
    exists g :: g in finished && SameSprite(f, g, sprites) && SpriteDealt(tr, g, sprite, ended, LiveWorkspaces(workers, ended), dry)
  }

  /** Some finished worker's terminal got this verdict. */
  ghost predicate ClosedFor(tr: seq<Event>, c: Closing, finished: seq<Worker>, workers: seq<Worker>, ended: map<string, string>) {
    var v := if c.ending then End(c) else Close(c);
    exists f :: f in finished && Got(tr, f, LiveTerminals(workers, ended.Keys), ended, Some(v))
  }

  predicate SameSprite(f: Worker, g: Worker, sprites: map<(string, string), Sprite>) {
    Keyed(f, sprites) && Keyed(g, sprites) && sprites[(g.workspace.value, g.terminal)] == sprites[(f.workspace.value, f.terminal)]
  }

  /** Terminals, worktrees and Sprites of the finished workers, in gc's order. */
  method ReclaimAll(w: World, finished: seq<Worker>, sprites: map<(string, string), Sprite>, workers: seq<Worker>, ended: map<string, string>, dry: bool)
    returns (done: seq<Action>, ghost closing: map<string, Closing>)
    requires Going(w, workers, ended.Keys, dry) && FinishedOnly(workers, ended.Keys, finished)
    requires sprites == map[] || SpritesRead(sprites) in w.trace
    modifies w`trace
    ensures Going(w, workers, ended.Keys, dry) && Extends(old(w.trace), w.trace)
    ensures AllDone(w.trace, finished, sprites, workers, ended, closing, dry)
  {
    hide Sound, VerdictOk, AllOk, ClosingOk, ReadHere, Extends, Hosting, LiveWorktrees, NoOpFrom, SettledSet, Going, FinishedOnly, Trees;
    hide Carried, AllCarried, AllGot, OnlyGot, AllDealt, TreeRead, RemovedAlong, SpriteDealt, AllDone, Target, Got, Keyed, OnSprite, TerminalDealt, TreeDone, SpriteDone, ClosedFor, LiveTerminals, LiveWorkspaces;
    var hosted := Hosted(finished, sprites, w.trace, workers, ended.Keys);
    ghost var start := w.trace;
    var rest := Unhosted(finished, hosted, workers, ended.Keys);
    var verdicts := TerminalVerdicts(w, rest, workers, ended, dry);
    ghost var t1 := w.trace;
    var toClose := Closings(verdicts, w.trace, workers, ended.Keys);
    closing := toClose;
    FirstActsOk(w.trace, workers, ended.Keys, verdicts, closing);
    var acts := FirstActs(verdicts, toClose);
    var acted := ActAll(w, acts, workers, ended.Keys, dry);
    ghost var t2 := w.trace;
    var live := LiveWorktrees(workers, ended.Keys);
    TreesApart(rest, sprites, live);
    var checkouts, drops, kept := ReadTrees(w, Trees(rest, sprites, live), workers, ended.Keys, dry);
    ghost var t3 := w.trace;
    var dropped := ActAll(w, drops, workers, ended.Keys, dry);
    ghost var t4 := w.trace;
    ReadHereKept(t3, t4, workers, ended.Keys, checkouts);
    ExtendsAgain(t2, t3, t4);
    ExtendsAgain(t1, t2, t4);
    ClosingKept(t1, t4, workers, ended.Keys, closing);
    var removed := RemoveTrees(w, checkouts, toClose, workers, ended.Keys, dry);
    ghost var t5 := w.trace;
    ExtendsAgain(t1, t4, t5);
    CloseVerdictsKept(t1, t5, workers, ended.Keys, closing);
    ClosingNames(t1, workers, ended.Keys, closing);
    var late := LateCloses(toClose, Stopped(removed), w.trace, workers, ended.Keys);
    var closed := ActAll(w, late, workers, ended.Keys, dry);
    ghost var t6 := w.trace;
    ExtendsAgain(t1, t5, t6);
    ExtendsAgain(start, t1, t6);
    HostingKept(start, t6, workers, ended.Keys, hosted);
    var reaped := ReapAll(w, hosted, workers, ended.Keys, dry);
    done := acted + kept + dropped + removed + closed + reaped;
    ExtendsAgain(t5, t6, w.trace);
    ExtendsAgain(t4, t5, w.trace);
    ExtendsAgain(t3, t4, w.trace);
    ExtendsAgain(t2, t3, w.trace);
    ExtendsAgain(t1, t2, w.trace);
    AllDealtKept(t5, w.trace, checkouts, closing, dry);
    if !dry {
      AllCarriedKept(t2, w.trace, acts);
      AllCarriedKept(t4, w.trace, drops);
      AllCarriedKept(t6, w.trace, late);
      forall t | t in Stopped(removed) ensures RemovedAlong(w.trace, t) { RemovedAlongKept(t5, w.trace, t); }
    }
    HostedApart(finished, rest, hosted, sprites);
    TerminalsEnd(t1, w.trace, finished, rest, sprites, LiveTerminals(workers, ended.Keys), ended, closing, verdicts, acts, late, Stopped(removed), dry);
    TreesEnd(t3, w.trace, finished, rest, sprites, live, checkouts, drops, closing, dry);
    SpritesEnd(w.trace, finished, hosted, sprites, workers, ended.Keys, dry);
    ClosingsEnd(t1, w.trace, finished, rest, workers, ended, closing, verdicts);
    AllDoneIs(w.trace, finished, sprites, workers, ended, closing, dry);
    ExtendsAgain(start, t6, w.trace);
  }

  lemma AllDoneIs(tr: seq<Event>, finished: seq<Worker>, sprites: map<(string, string), Sprite>, workers: seq<Worker>,
                  ended: map<string, string>, closing: map<string, Closing>, dry: bool)
    requires forall f :: f in finished && !Keyed(f, sprites) ==> TerminalDealt(tr, f, LiveTerminals(workers, ended.Keys), ended, closing, dry)
    requires forall f :: f in finished && f.worktree.Some? && !OnSprite(f, sprites) && (f.environment, f.worktree) !in LiveWorktrees(workers, ended.Keys) ==>
      TreeDone(tr, f.worktree.value, f.environment, closing, dry)
    requires forall f :: f in finished && Keyed(f, sprites) ==> SpriteDone(tr, f, finished, sprites, workers, ended.Keys, dry)
    requires forall t :: t in closing ==> closing[t].terminal == t && ClosedFor(tr, closing[t], finished, workers, ended)
    ensures AllDone(tr, finished, sprites, workers, ended, closing, dry)
  {
    hide TerminalDealt, TreeDone, SpriteDone, ClosedFor, LiveTerminals, LiveWorktrees;
  }

  lemma TerminalsEnd(start: seq<Event>, tr: seq<Event>, finished: seq<Worker>, rest: seq<Worker>, sprites: map<(string, string), Sprite>, live: set<string>,
                     ended: map<string, string>, closing: map<string, Closing>, verdicts: seq<Action>, acts: seq<Action>, late: seq<Action>,
                     stopped: set<string>, dry: bool)
    requires Extends(start, tr) && AllGot(start, rest, live, ended, verdicts)
    requires forall f :: f in finished && !Keyed(f, sprites) ==> f in rest
    requires forall v :: v in verdicts && (v.End? || v.Close?) ==> v.closing.terminal in closing
    requires forall t :: t in closing ==> closing[t].terminal == t && (if closing[t].ending then End(closing[t]) else Close(closing[t])) in verdicts
    requires forall v :: v in verdicts && (Target(v) !in closing || v.End?) ==> v in acts
    requires forall t :: t in closing && t !in stopped && !closing[t].ending ==> Close(closing[t]) in late
    requires !dry ==> AllCarried(tr, acts) && AllCarried(tr, late) && forall t :: t in stopped ==> RemovedAlong(tr, t)
    ensures forall f :: f in finished && !Keyed(f, sprites) ==> TerminalDealt(tr, f, live, ended, closing, dry)
  {
    hide TerminalDealt, AllGot, AllCarried, RemovedAlong, Extends, Keyed, Target;
    forall f | f in finished && !Keyed(f, sprites)
      ensures TerminalDealt(tr, f, live, ended, closing, dry)
    {
      TerminalFinal(start, tr, rest, f, live, ended, closing, verdicts, acts, late, stopped, dry);
    }
  }

  lemma TreesEnd(read: seq<Event>, tr: seq<Event>, finished: seq<Worker>, rest: seq<Worker>, sprites: map<(string, string), Sprite>,
                 live: set<(Env, Option<string>)>, checkouts: seq<Checkout>, drops: seq<Action>, closing: map<string, Closing>, dry: bool)
    requires Extends(read, tr) && forall f :: f in finished && !Keyed(f, sprites) ==> f in rest
    requires forall tree :: tree in Trees(rest, sprites, live) && tree.1.Some? ==> TreeRead(read, tree.1.value, tree.0, checkouts, drops)
    requires AllDealt(tr, checkouts, closing, dry) && (!dry ==> AllCarried(tr, drops))
    ensures forall f :: f in finished && f.worktree.Some? && !OnSprite(f, sprites) && (f.environment, f.worktree) !in live ==>
      TreeDone(tr, f.worktree.value, f.environment, closing, dry)
  {
    hide TreeRead, AllDealt, AllCarried, TreeDone, Extends;
    forall f | f in finished && f.worktree.Some? && !OnSprite(f, sprites) && (f.environment, f.worktree) !in live
      ensures TreeDone(tr, f.worktree.value, f.environment, closing, dry)
    {
      assert f in rest && (f.environment, f.worktree) in Trees(rest, sprites, live);
      TreeFinal(read, tr, f.worktree.value, f.environment, checkouts, drops, closing, dry);
    }
  }

  lemma SpritesEnd(tr: seq<Event>, finished: seq<Worker>, hosted: map<Sprite, Worker>, sprites: map<(string, string), Sprite>, workers: seq<Worker>, ended: set<string>, dry: bool)
    requires forall s :: s in hosted ==> hosted[s] in finished && Keyed(hosted[s], sprites) && sprites[(hosted[s].workspace.value, hosted[s].terminal)] == s
    requires forall f :: f in finished && Keyed(f, sprites) ==> sprites[(f.workspace.value, f.terminal)] in hosted
    requires forall s :: s in hosted ==> SpriteDealt(tr, hosted[s], s, ended, LiveWorkspaces(workers, ended), dry)
    ensures forall f :: f in finished && Keyed(f, sprites) ==> SpriteDone(tr, f, finished, sprites, workers, ended, dry)
  {
    hide SpriteDealt, LiveWorkspaces;
    forall f | f in finished && Keyed(f, sprites)
      ensures SpriteDone(tr, f, finished, sprites, workers, ended, dry)
    {
      var g := hosted[sprites[(f.workspace.value, f.terminal)]];
      assert SameSprite(f, g, sprites);
    }
  }

  lemma ClosingsEnd(start: seq<Event>, tr: seq<Event>, finished: seq<Worker>, rest: seq<Worker>, workers: seq<Worker>, ended: map<string, string>,
                    closing: map<string, Closing>, verdicts: seq<Action>)
    requires Extends(start, tr) && OnlyGot(start, rest, LiveTerminals(workers, ended.Keys), ended, verdicts) && forall f :: f in rest ==> f in finished
    requires forall t :: t in closing ==> (if closing[t].ending then End(closing[t]) else Close(closing[t])) in verdicts
    ensures forall t :: t in closing ==> ClosedFor(tr, closing[t], finished, workers, ended)
  {
    hide Got, LiveTerminals, Extends;
    OnlyGotKept(start, tr, rest, LiveTerminals(workers, ended.Keys), ended, verdicts);
  }

  lemma HostedApart(finished: seq<Worker>, rest: seq<Worker>, hosted: map<Sprite, Worker>, sprites: map<(string, string), Sprite>)
    requires forall f :: f in rest <==> f in finished && f !in hosted.Values
    requires forall s :: s in hosted ==> Keyed(hosted[s], sprites)
    ensures forall f :: f in finished && !Keyed(f, sprites) ==> f in rest
  {
  }

  lemma FirstActsOk(tr: seq<Event>, workers: seq<Worker>, ended: set<string>, verdicts: seq<Action>, closing: map<string, Closing>)
    requires AllOk(tr, workers, ended, verdicts)
    ensures AllOk(tr, workers, ended, FirstActs(verdicts, closing))
  {
    hide VerdictOk;
  }

  lemma TreesApart(finished: seq<Worker>, sprites: map<(string, string), Sprite>, live: set<(Env, Option<string>)>)
    ensures Trees(finished, sprites, live) !! live
  {
  }

  method Unhosted(finished: seq<Worker>, hosted: map<Sprite, Worker>, ghost workers: seq<Worker>, ghost ended: set<string>) returns (rest: seq<Worker>)
    requires FinishedOnly(workers, ended, finished)
    ensures FinishedOnly(workers, ended, rest)
    ensures forall f :: f in rest <==> f in finished && f !in hosted.Values
  {
    hide SettledSet;
    rest := [];
    for i := 0 to |finished|
      invariant FinishedOnly(workers, ended, rest)
      invariant forall f :: f in rest <==> f in finished[..i] && f !in hosted.Values
    {
      if finished[i] !in hosted.Values {
        rest := rest + [finished[i]];
      }
    }
  }

  lemma QuietOne(tr: seq<Event>, e: Event)
    requires NoOpFrom(tr, 0) && !IsOp(e)
    ensures NoOpFrom(tr + [e], 0)
  {
  }

  /** What a pass leaves: all that its finished workers left is dealt with, on the Sprites it found recorded. */
  ghost predicate PassDone(tr: seq<Event>, workers: seq<Worker>, ended: map<string, string>, scope: set<string>, dry: bool) {
    exists finished, sprites, closing :: PassLeaves(tr, workers, ended, scope, dry, finished, sprites, closing)
  }

  ghost predicate PassLeaves(tr: seq<Event>, workers: seq<Worker>, ended: map<string, string>, scope: set<string>, dry: bool,
                             finished: seq<Worker>, sprites: map<(string, string), Sprite>, closing: map<string, Closing>) {
    && (forall f :: f in finished <==> Due(f, workers, ended.Keys, scope))
    && (finished != [] ==> SpritesRead(sprites) in tr)
    && AllDone(tr, finished, sprites, workers, ended, closing, dry)
  }

  /** The pass proper, once lanes are ended: the workers are listed, and what the settled ones left is dealt with. */
  method Pass(w: World, scope: set<string>, ended: map<string, string>, dry: bool) returns (done: seq<Action>)
    requires w.Valid() && (if dry then NoOpFrom(w.trace, 0) else w.ended == ended.Keys)
    modifies w
    ensures w.Valid() && (if dry then NoOpFrom(w.trace, 0) else w.ended == ended.Keys) && Extends(old(w.trace), w.trace)
    ensures PassDone(w.trace, w.workers, ended, scope, dry)
  {
    hide Sound, NoOpFrom, LastWorkers, EndedIn, SettledSet, FinishedOnly, OpOk, AllDone, Due;
    ghost var start := w.trace;
    var workers := w.ListWorkers();
    if dry { QuietOne(start, WorkersRead(workers)); }
    var finished := Finished(workers, ended.Keys, scope);
    var sprites: map<(string, string), Sprite> := map[];
    if finished != [] {
      ghost var listed := w.trace;
      sprites := w.Sprites();
      assert w.trace[|w.trace| - 1] == SpritesRead(sprites);
      if dry { QuietOne(listed, SpritesRead(sprites)); }
    }
    ghost var read, closing := w.trace, map[];
    done, closing := ReclaimAll(w, finished, sprites, workers, ended, dry);
    Kept(read, w.trace);
    ExtendsAgain(start, read, w.trace);
    assert PassLeaves(w.trace, workers, ended, scope, dry, finished, sprites, closing);
  }

  /** A pass that cleanup was not paused before, or in: lanes are ended, and what is left is dealt with. */
  ghost predicate Thorough(tr: seq<Event>, workers: seq<Worker>, dispatches: set<string>, ending: seq<string>, dry: bool) {
    exists ended :: StopsDone(tr, ending, ended, dry) && (!dry ==> ended.Keys == EndedIn(tr))
      && PassDone(tr, workers, ended, dispatches + (set d | d in ending), dry)
  }

  /**
   gc: whatever Orca, git, GitHub, the Sprites and the pause file answer, and whenever they change, every
   operation of the pass is justified by what the pass has read, and unless cleanup is paused at the start
   everything that is due is dealt with; a dry run makes no operation.
   */
  method Gc(w: World, dispatches: set<string>, ending: seq<string>, dry: bool) returns (done: seq<Action>)
    requires w.Valid() && w.trace == []
    modifies w
    ensures Sound(w.trace)
    ensures dry ==> NoOpFrom(w.trace, 0)
    ensures (!dry && w.trace == [PauseRead(true)]) || Thorough(w.trace, w.workers, dispatches, ending, dry)
  {
    assert w.ended == {} && NoOpFrom(w.trace, 0);
    hide Sound, NoOpFrom, LastWorkers, EndedIn, OpOk, PassDone, StopDealt, EndedWith;
    if !dry {
      ghost var start := w.trace;
      var held := w.Held();
      QuietOne(start, PauseRead(held));
      if held {
        return [Skip("gc")];
      }
    }
    var stops, ended := StopAll(w, ending, dry);
    ghost var ready := w.trace;
    var rest := Pass(w, dispatches + (set d | d in ending), ended, dry);
    done := stops + rest;
    StopDealtKept(ready, w.trace);
    assert StopsDone(w.trace, ending, ended, dry);
  }
}
