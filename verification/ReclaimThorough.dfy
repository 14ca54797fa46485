/**
 What the reclaimer decides on the answers it gets, exactly, and when it has carried a decision out. The
 questions and answers of one decision are a stretch of the trace.
 */
module ReclaimThorough {
  import opened Options
  import opened ReclaimTrace

  const EXTERNAL := "external_terminal"
  const CLOSED_BY_STOP := "closed_agent_terminal"

  datatype Action =
    | Keep(name: string) | Skip(name: string)
    | Release(name: string) | End(closing: Closing) | Close(closing: Closing)
    | Remove(plan: Removal) | Drop(name: string) | Destroy(name: string)
    | Stop(name: string) | Abandon(name: string)
    | DidRelease(name: string) | DidClose(name: string) | DidRemove(plan: Removal) | DidDrop(name: string) | DidDestroy(name: string)
    | DidStop(name: string) | DidAbandon(name: string)

  function Target(a: Action): string {
    if a.End? || a.Close? then a.closing.terminal else if a.Remove? || a.DidRemove? then a.plan.path else a.name
  }

  // ----- stretches of a trace

  predicate Extends(tr: seq<Event>, tr': seq<Event>) {
    |tr| <= |tr'| && tr'[..|tr|] == tr
  }

  lemma ExtendsAgain(a: seq<Event>, b: seq<Event>, c: seq<Event>)
    requires Extends(a, b) && Extends(b, c)
    ensures Extends(a, c) && |a| <= |b| <= |c|
  {
    assert c[..|a|] == c[..|b|][..|a|];
  }

  /** What a longer trace adds. */
  function Since(tr: seq<Event>, tr': seq<Event>): (more: seq<Event>)
    requires Extends(tr, tr')
    ensures tr' == tr + more
  {
    tr'[|tr|..]
  }

  lemma SeenAt(tr: seq<Event>, n: nat, i: nat)
    requires n <= i < |tr|
    ensures tr[i] in tr[n..]
  {
    assert tr[n..][i - n] == tr[i];
  }

  predicate SliceAt(tr: seq<Event>, part: seq<Event>, i: nat) {
    i + |part| <= |tr| && tr[i..i + |part|] == part
  }

  /** `part` is a stretch of `tr`. */
  ghost predicate Slice(tr: seq<Event>, part: seq<Event>) {
    exists i: nat :: SliceAt(tr, part, i)
  }

  lemma SliceOfSlice(a: seq<Event>, b: seq<Event>, c: seq<Event>)
    requires Slice(a, b) && Slice(b, c)
    ensures Slice(a, c)
  {
    var i: nat :| SliceAt(a, b, i);
    var j: nat :| SliceAt(b, c, j);
    forall k | 0 <= k < |c|
      ensures a[i + j + k] == c[k]
    {
      assert a[i..i + |b|][j + k] == b[j + k] && b[j..j + |c|][k] == c[k];
    }
    assert SliceAt(a, c, i + j);
  }

  lemma SliceHas(tr: seq<Event>, part: seq<Event>)
    requires Slice(tr, part)
    ensures forall e :: e in part ==> e in tr
  {
    var i: nat :| SliceAt(tr, part, i);
    forall e | e in part
      ensures e in tr
    {
      var k :| 0 <= k < |part| && part[k] == e;
      assert tr[i + k] == tr[i..i + |part|][k] == e;
    }
  }

  lemma SliceParts(a: seq<Event>, b: seq<Event>, c: seq<Event>)
    ensures Slice(a + b + c, b) && Slice(a + b, b) && Slice(a + b, a) && Slice(a, a)
  {
    assert SliceAt(a + b + c, b, |a|);
    assert SliceAt(a + b, b, |a|);
    assert SliceAt(a + b, a, 0);
    assert SliceAt(a, a, 0);
  }

  // ----- what is saved

  /** Whether a checkout is saved, on what the origin was asked about it. */
  ghost predicate Judged(asked: seq<Event>, c: Checkout, saved: bool) {
    if c.dirty || c.offOrigin != 0 then asked == [] && !saved
    else if c.onTrunk then asked == [] && saved
    else
      || (asked == [HeadRead(c.repository, c.head, Branches, Yes)] && saved)
      || (asked == [HeadRead(c.repository, c.head, Branches, Refused)] && !saved)
      || exists landed :: asked == [HeadRead(c.repository, c.head, Branches, No), HeadRead(c.repository, c.head, Landed, landed)] && saved == (landed == Yes)
  }

  /** A checkout is saved exactly when it is clean and on the trunk, on a branch of the origin or landed. */
  lemma SavedExactly(asked: seq<Event>, c: Checkout, saved: bool)
    requires Judged(asked, c, saved)
    ensures saved <==>
      && !c.dirty && c.offOrigin == 0
      && (c.onTrunk || HeadRead(c.repository, c.head, Branches, Yes) in asked || HeadRead(c.repository, c.head, Landed, Yes) in asked)
    ensures saved <==> NothingUnsaved(asked, c)
  {
  }

  // ----- terminals

  predicate Present(p: Presence) {
    p == Connected || p == OtherError
  }

  /** The verdict on a terminal whose presence decides. */
  function ByPresence(p: Presence, t: string, here: Action): Option<Action> {
    if Present(p) then Some(here) else if p == Disconnected then None else Some(Keep(t))
  }

  /** What becomes of a finished worker's terminal, on what was asked about it. */
  ghost predicate TerminalJudged(asked: seq<Event>, f: Worker, live: set<string>, ended: map<string, string>, a: Option<Action>) {
    var t, env := f.terminal, f.environment;
    if f.terminalState == "released" || t == "" then asked == [] && a == None
    else if f.dispatch in ended then
      if ended[f.dispatch] == CLOSED_BY_STOP then asked == [] && a == None
      else if f.ownership == "owned" && Settled(f) && f.retained == None then asked == [] && a == Some(Release(f.dispatch))
      else exists p :: asked == [PresenceRead(t, env, p)] && a == ByPresence(p, t, End(Closing(t, true, f.dispatch, env)))
    else if f.retained.Some? && f.retained.value != EXTERNAL then asked == [] && a == Some(Keep(t))
    else if f.ownership == "owned" then asked == [] && a == Some(Release(f.dispatch))
    else if (f.retained == None && env == None) || t in live then asked == [] && a == Some(Keep(t))
    else
      || (exists p :: asked == [PresenceRead(t, env, p)] && !Present(p) && a == ByPresence(p, t, Keep(t)))
      || (exists p, idle :: asked == [PresenceRead(t, env, p), IdleRead(t, env, idle)] && Present(p) && a == ByIdle(idle, f))
  }

  function ByIdle(idle: Option<bool>, f: Worker): Option<Action> {
    if idle == None then None
    else if idle.value then Some(Close(Closing(f.terminal, false, f.dispatch, f.environment)))
    else Some(Keep(f.terminal))
  }

  /** A terminal that is neither released nor ended with its lane, external or on a paired host, and out of use. */
  predicate MayBeIdle(f: Worker, live: set<string>, ended: map<string, string>) {
    && f.terminalState != "released" && f.terminal != "" && f.dispatch !in ended && f.ownership != "owned"
    && (f.retained == Some("external_terminal") || (f.retained == None && f.environment != None)) && f.terminal !in live
  }

  /** The verdicts on a terminal, each with exactly its case. */
  lemma TerminalExactly(asked: seq<Event>, f: Worker, live: set<string>, ended: map<string, string>, a: Option<Action>)
    requires TerminalJudged(asked, f, live, ended, a)
    ensures a.Some? && a.value.Close? <==>
      && MayBeIdle(f, live, ended)
      && exists p :: asked == [PresenceRead(f.terminal, f.environment, p), IdleRead(f.terminal, f.environment, Some(true))] && (p == Connected || p == OtherError)
    ensures a.Some? && a.value.End? <==>
      && f.terminalState != "released" && f.terminal != "" && f.dispatch in ended && ended[f.dispatch] != "closed_agent_terminal"
      && !(f.ownership == "owned" && (f.status == "completed" || f.status == "failed") && f.retained == None)
      && exists p :: asked == [PresenceRead(f.terminal, f.environment, p)] && (p == Connected || p == OtherError)
    ensures a.Some? && a.value.Release? <==>
      && f.terminalState != "released" && f.terminal != "" && f.ownership == "owned"
      && if f.dispatch in ended then ended[f.dispatch] != "closed_agent_terminal" && (f.status == "completed" || f.status == "failed") && f.retained == None
         else f.retained == None || f.retained == Some("external_terminal")
    ensures a.Some? ==>
      match a.value
      case Close(c) => c == Closing(f.terminal, false, f.dispatch, f.environment)
      case End(c) => c == Closing(f.terminal, true, f.dispatch, f.environment)
      case Release(d) => d == f.dispatch
      case Keep(t) => t == f.terminal
      case _ => false
  {
  }

  // ----- worktrees

  function Terms(list: ListAnswer): seq<Terminal> {
    if list.Listed? then list.terminals else []
  }

  /** The agents of a worktree's terminals that gc is closing anyway. */
  function Stopping(terminals: seq<Terminal>, closing: map<string, Closing>): (agents: seq<Closing>)
    ensures forall a :: a in agents ==> exists t :: t in terminals && t.handle in closing && closing[t.handle] == a
    ensures forall t :: t in terminals && t.handle in closing ==> closing[t.handle] in agents
  {
    if terminals == [] then []
    else
      (if terminals[0].handle in closing then [closing[terminals[0].handle]] else []) + Stopping(terminals[1..], closing)
  }

  /** Some terminal is neither being closed nor an idle shell. */
  predicate InUse(terminals: seq<Terminal>, closing: map<string, Closing>, path: string, ms: int) {
    exists t :: t in terminals && t.handle !in closing && !IdleShell(t, path, ms)
  }

  function PlanFor(c: Checkout, list: ListAnswer, closing: map<string, Closing>): Removal {
    Removal(c.path, c.environment, Handles(Terms(list)), Stopping(Terms(list), closing))
  }

  /** What becomes of a worktree, on its terminals, the clock, and what the origin was asked. */
  ghost predicate TreeAnswered(asked: seq<Event>, c: Checkout, closing: map<string, Closing>, a: Action, list: ListAnswer, ms: int, more: seq<Event>, saved: bool) {
    && asked == [TerminalsRead(c.path, c.environment, list), ClockRead(ms)] + more
    && (if list.ListError? || InUse(Terms(list), closing, c.path, ms) then more == [] && !saved else Judged(more, c, saved))
    && a == if saved then Remove(PlanFor(c, list, closing)) else Keep(c.path)
  }

  ghost predicate TreeJudged(asked: seq<Event>, c: Checkout, closing: map<string, Closing>, a: Action) {
    exists list, ms, more, saved :: TreeAnswered(asked, c, closing, a, list, ms, more, saved)
  }

  /** A removal is planned exactly for a readable list of idle or closing terminals in a saved tree. */
  lemma RemovalExactly(asked: seq<Event>, c: Checkout, closing: map<string, Closing>, a: Action)
    requires TreeJudged(asked, c, closing, a)
    ensures asked != [] && asked[0].TerminalsRead? && asked[0].path == c.path && asked[0].env == c.environment
    ensures |asked| > 1 && asked[1].ClockRead?
    ensures a.Remove? <==>
      && asked[0].list != ListError
      && (forall t :: t in Terms(asked[0].list) ==> t.handle in closing || IdleShell(t, c.path, asked[1].ms))
      && !c.dirty && c.offOrigin == 0
      && (c.onTrunk || HeadRead(c.repository, c.head, Branches, Yes) in asked || HeadRead(c.repository, c.head, Landed, Yes) in asked)
    ensures a.Remove? ==> a.plan.path == c.path && a.plan.env == c.environment && a.plan.shells == Handles(Terms(asked[0].list))
    ensures a.Remove? ==> forall t :: t in Terms(asked[0].list) && t.handle in closing ==> closing[t.handle] in a.plan.agents
    ensures !a.Remove? ==> a == Keep(c.path)
  {
    var list, ms, more, saved :| TreeAnswered(asked, c, closing, a, list, ms, more, saved);
    assert asked[0] == TerminalsRead(c.path, c.environment, list) && asked[1] == ClockRead(ms) && asked[2..] == more;
    assert forall place, answer :: HeadRead(c.repository, c.head, place, answer) in asked <==> HeadRead(c.repository, c.head, place, answer) in more;
    hide IdleShell, Handles, Stopping;
    if !list.ListError? && !InUse(Terms(list), closing, c.path, ms) { SavedExactly(more, c, saved); }
  }

  /** Something that a removal rests on changed, on a second reading. */
  ghost predicate Disturbed(again: seq<Event>, plan: Removal) {
    && again != [] && again[0].TerminalsRead? && again[0].path == plan.path && again[0].env == plan.env
    && var now := Terms(again[0].list);
       || again[0].list == ListError
       || (exists t :: t in now && t.handle !in plan.shells)
       || (exists a :: a in plan.agents && !a.ending && IdleRead(a.terminal, a.env, Some(false)) in again)
       || (exists t, ms :: t in now && t.handle !in Targets(plan.agents) && ClockRead(ms) in again && !IdleShell(t, plan.path, ms))
       || (plan.env == None && HolderRead(plan.path, Panes(now, Targets(plan.agents)), true) in again)
  }

  // ----- carrying out

  predicate Requested(tr: seq<Event>, path: string, env: Env) {
    RemoveOp(path, env, Removed) in tr || RemoveOp(path, env, Unregistered) in tr || RemoveOp(path, env, RemoveError) in tr
  }

  predicate Closes(tr: seq<Event>, c: Closing) {
    CloseOp(c.terminal, c.env, true) in tr || CloseOp(c.terminal, c.env, false) in tr
  }

  /** The verdict was carried out, unless cleanup was paused or a second reading found a change. */
  ghost predicate Carried(tr: seq<Event>, a: Action) {
    PauseRead(true) in tr ||
    match a
    case Release(d) => ReleaseOp(d, true) in tr || ReleaseOp(d, false) in tr
    case End(c) => Closes(tr, c)
    case Close(c) => Closes(tr, c) || IdleRead(c.terminal, c.env, Some(false)) in tr || IdleRead(c.terminal, c.env, None) in tr
    case Remove(plan) => Requested(tr, plan.path, plan.env) || exists again :: Slice(tr, again) && Disturbed(again, plan)
    case Drop(path) => Requested(tr, path, None)
    case _ => true
  }

  /** What was carried out in a stretch of the trace was carried out. */
  lemma CarriedWithin(tr: seq<Event>, part: seq<Event>, a: Action)
    requires Slice(tr, part) && Carried(part, a)
    ensures Carried(tr, a)
  {
    SliceHas(tr, part);
    if a.Remove? && !Requested(part, a.plan.path, a.plan.env) && PauseRead(true) !in part {
      var again :| Slice(part, again) && Disturbed(again, a.plan);
      hide Disturbed, Slice;
      SliceOfSlice(tr, part, again);
    }
  }

  lemma PrefixSlice(tr: seq<Event>, tr': seq<Event>)
    requires Extends(tr, tr')
    ensures Slice(tr', tr)
  {
    assert SliceAt(tr', tr, 0);
  }

  lemma CarriedKept(tr: seq<Event>, tr': seq<Event>, a: Action)
    requires Extends(tr, tr') && Carried(tr, a)
    ensures Carried(tr', a)
  {
    hide Carried, Extends, Slice;
    PrefixSlice(tr, tr');
    CarriedWithin(tr', tr, a);
  }

  ghost predicate AllCarried(tr: seq<Event>, verdicts: seq<Action>) {
    forall v :: v in verdicts ==> Carried(tr, v)
  }

  lemma AllCarriedKept(tr: seq<Event>, tr': seq<Event>, verdicts: seq<Action>)
    requires Extends(tr, tr') && AllCarried(tr, verdicts)
    ensures AllCarried(tr', verdicts)
  {
    hide Carried, Extends;
    forall v | v in verdicts
      ensures Carried(tr', v)
    {
      CarriedKept(tr, tr', v);
    }
  }

  // ----- the terminals of a pass

  /** The worker's terminal got this verdict somewhere in the trace. */
  ghost predicate Got(tr: seq<Event>, f: Worker, live: set<string>, ended: map<string, string>, a: Option<Action>) {
    exists asked :: Slice(tr, asked) && TerminalJudged(asked, f, live, ended, a)
  }

  lemma GotKept(tr: seq<Event>, tr': seq<Event>, f: Worker, live: set<string>, ended: map<string, string>, a: Option<Action>)
    requires Slice(tr', tr) && Got(tr, f, live, ended, a)
    ensures Got(tr', f, live, ended, a)
  {
    hide Slice, TerminalJudged;
    var asked :| Slice(tr, asked) && TerminalJudged(asked, f, live, ended, a);
    SliceOfSlice(tr', tr, asked);
  }

  /** The worktree that the terminal was listed in was to be removed. */
  ghost predicate RemovedAlong(tr: seq<Event>, t: string) {
    exists path, env, terminals ::
      TerminalsRead(path, env, Listed(terminals)) in tr && t in Handles(terminals) && Requested(tr, path, env)
  }

  /** The terminal was closed for some worker, or went with its worktree. */
  ghost predicate SomehowClosed(tr: seq<Event>, t: string) {
    RemovedAlong(tr, t) || exists c: Closing :: c.terminal == t && (Carried(tr, End(c)) || Carried(tr, Close(c)))
  }

  lemma RemovedAlongKept(tr: seq<Event>, tr': seq<Event>, t: string)
    requires Extends(tr, tr') && RemovedAlong(tr, t)
    ensures RemovedAlong(tr', t)
  {
    hide Handles, Extends;
    PrefixSlice(tr, tr');
    SliceHas(tr', tr);
    var path, env, terminals :| TerminalsRead(path, env, Listed(terminals)) in tr && t in Handles(terminals) && Requested(tr, path, env);
    assert TerminalsRead(path, env, Listed(terminals)) in tr' && Requested(tr', path, env);
  }

  /** A verdict is carried out, or its target is a terminal that was closed otherwise. */
  ghost predicate Dealt(tr: seq<Event>, v: Action, closing: map<string, Closing>) {
    Carried(tr, v) || (!v.End? && Target(v) in closing && SomehowClosed(tr, Target(v)))
  }

  /** The worker's terminal got a verdict, which was dealt with; to be closed is to be in `closing`. */
  ghost predicate TerminalDealt(tr: seq<Event>, f: Worker, live: set<string>, ended: map<string, string>, closing: map<string, Closing>, dry: bool) {
    exists a :: Got(tr, f, live, ended, a) && (a.Some? ==>
      && ((a.value.End? || a.value.Close?) ==> a.value.closing.terminal in closing)
      && (dry || Dealt(tr, a.value, closing)))
  }

  // ----- the worktrees of a pass

  /** The tree was judged on its own answers, and what was decided was carried out. */
  ghost predicate TreeDealt(tr: seq<Event>, c: Checkout, closing: map<string, Closing>, dry: bool) {
    exists asked, a :: Slice(tr, asked) && TreeJudged(asked, c, closing, a) && (dry || Carried(tr, a))
  }

  lemma TreeDealtKept(tr: seq<Event>, tr': seq<Event>, c: Checkout, closing: map<string, Closing>, dry: bool)
    requires Slice(tr', tr) && TreeDealt(tr, c, closing, dry)
    ensures TreeDealt(tr', c, closing, dry)
  {
    hide Slice, TreeJudged, Carried;
    var asked, a :| Slice(tr, asked) && TreeJudged(asked, c, closing, a) && (dry || Carried(tr, a));
    SliceOfSlice(tr', tr, asked);
    if !dry { CarriedWithin(tr', tr, a); }
  }

  /** A worktree is read; it is dealt with if found, and dropped if it is local, gone and still listed. */
  ghost predicate TreeDone(tr: seq<Event>, path: string, env: Env, closing: map<string, Closing>, dry: bool) {
    exists found :: CheckoutRead(path, env, found) in tr &&
      match found
      case Found(c) => c.path == path && c.environment == env && TreeDealt(tr, c, closing, dry)
      case Missing => env == None ==> RegisteredRead(path, false) in tr || (RegisteredRead(path, true) in tr && (dry || Carried(tr, Drop(path))))
      case Unreadable => true
  }

  // ----- the Sprites of a pass

  /** What becomes of a Sprite, on what was asked about it. */
  ghost predicate SpriteJudged(asked: seq<Event>, f: Worker, sprite: Sprite, ended: set<string>, live: set<Option<string>>, destroy: bool) {
    if f.workspace in live then asked == [] && !destroy
    else exists idle ::
      if f.dispatch !in ended && idle != Some(true) then asked == [IdleRead(f.terminal, Some(sprite.environment), idle)] && !destroy
      else SpriteAsked(asked, if f.dispatch in ended then [] else [IdleRead(f.terminal, Some(sprite.environment), idle)], sprite, destroy)
  }

  ghost predicate SpriteAsked(asked: seq<Event>, head: seq<Event>, sprite: Sprite, destroy: bool) {
    exists found, more :: asked == head + [SpriteRead(sprite, found)] + more
      && if found.Found? then Judged(more, found.checkout, destroy) else more == [] && !destroy
  }

  /** The Sprite and then its environment were to be destroyed, unless cleanup was paused or its terminal woke. */
  predicate Destroyed(tr: seq<Event>, f: Worker, sprite: Sprite, ended: set<string>) {
    || PauseRead(true) in tr
    || DestroyOp(sprite, true) in tr
    || (DestroyOp(sprite, false) in tr && (ForgetOp(sprite.environment, true) in tr || ForgetOp(sprite.environment, false) in tr))
    || (f.dispatch !in ended && (IdleRead(f.terminal, Some(sprite.environment), None) in tr || IdleRead(f.terminal, Some(sprite.environment), Some(false)) in tr))
  }

  ghost predicate SpriteDealt(tr: seq<Event>, f: Worker, sprite: Sprite, ended: set<string>, live: set<Option<string>>, dry: bool) {
    exists asked, destroy :: Slice(tr, asked) && SpriteJudged(asked, f, sprite, ended, live, destroy) && (dry || !destroy || Destroyed(tr, f, sprite, ended))
  }

  lemma SpriteDealtKept(tr: seq<Event>, tr': seq<Event>, f: Worker, sprite: Sprite, ended: set<string>, live: set<Option<string>>, dry: bool)
    requires Slice(tr', tr) && SpriteDealt(tr, f, sprite, ended, live, dry)
    ensures SpriteDealt(tr', f, sprite, ended, live, dry)
  {
    SliceHas(tr', tr);
    hide Slice, SpriteJudged;
    var asked, destroy :| Slice(tr, asked) && SpriteJudged(asked, f, sprite, ended, live, destroy) && (dry || !destroy || Destroyed(tr, f, sprite, ended));
    SliceOfSlice(tr', tr, asked);
  }

  /** `c` is clean and on the trunk, on a branch of the origin or landed, as the answers say. */
  predicate Vouched(asked: seq<Event>, c: Checkout) {
    && !c.dirty && c.offOrigin == 0
    && (c.onTrunk || HeadRead(c.repository, c.head, Branches, Yes) in asked || HeadRead(c.repository, c.head, Landed, Yes) in asked)
  }

  lemma AskedExactly(asked: seq<Event>, head: seq<Event>, sprite: Sprite, destroy: bool)
    requires SpriteAsked(asked, head, sprite, destroy) && forall e :: e in head ==> e.IdleRead?
    ensures asked != []
    ensures destroy <==> exists c :: SpriteRead(sprite, Found(c)) in asked && Vouched(asked, c)
    ensures head != [] ==> asked[0] == head[0]
  {
    var found, more :| asked == head + [SpriteRead(sprite, found)] + more
      && if found.Found? then Judged(more, found.checkout, destroy) else more == [] && !destroy;
    assert forall e :: e in more ==> e.HeadRead?;
    assert asked[|head|] == SpriteRead(sprite, found);
    assert forall e :: e in asked <==> e in head || e == SpriteRead(sprite, found) || e in more;
    if found.Found? {
      SavedExactly(more, found.checkout, destroy);
      assert Vouched(asked, found.checkout) <==> destroy;
    }
  }

  /** A Sprite is destroyed exactly if nobody unsettled is in its workspace, it is idle or its lane ended, and it is saved. */
  lemma DestroyExactly(asked: seq<Event>, f: Worker, sprite: Sprite, ended: set<string>, live: set<Option<string>>, destroy: bool)
    requires SpriteJudged(asked, f, sprite, ended, live, destroy)
    ensures destroy <==>
      && f.workspace !in live && asked != []
      && (f.dispatch in ended || asked[0] == IdleRead(f.terminal, Some(sprite.environment), Some(true)))
      && exists c :: SpriteRead(sprite, Found(c)) in asked && !c.dirty && c.offOrigin == 0
           && (c.onTrunk || HeadRead(c.repository, c.head, Branches, Yes) in asked || HeadRead(c.repository, c.head, Landed, Yes) in asked)
  {
    hide SpriteAsked;
    if f.workspace !in live {
      var env := Some(sprite.environment);
      var idle :|
        if f.dispatch !in ended && idle != Some(true) then asked == [IdleRead(f.terminal, env, idle)] && !destroy
        else SpriteAsked(asked, if f.dispatch in ended then [] else [IdleRead(f.terminal, env, idle)], sprite, destroy);
      if f.dispatch in ended || idle == Some(true) {
        AskedExactly(asked, if f.dispatch in ended then [] else [IdleRead(f.terminal, env, idle)], sprite, destroy);
        assert (exists c :: SpriteRead(sprite, Found(c)) in asked && Vouched(asked, c)) <==> destroy;
      }
    }
  }
}
