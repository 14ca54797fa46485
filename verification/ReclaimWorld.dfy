/** Everything the reclaimer calls: each call leaves its answer, which may be anything, in the trace. */
module ReclaimWorld {
  import opened Options
  import opened ReclaimTrace

  class World {
    ghost var trace: seq<Event>
    ghost var workers: seq<Worker>
    ghost var ended: set<string>

    ghost predicate Valid()
      reads this
    {
      Sound(trace) && workers == LastWorkers(trace) && ended == EndedIn(trace)
    }

    constructor ()
      ensures Valid() && trace == []
    {
      trace, workers, ended := [], [], {};
    }

    /** Adds a call that settles nothing and lists no workers. */
    ghost method Note(e: Event)
      requires Valid() && OpOk(trace, e) && !e.WorkersRead? && EndedBy(e) == {}
      modifies this`trace
      ensures Valid() && trace == old(trace) + [e]
    {
      SoundGrows(trace, e);
      hide OpOk, Sound, EndedBy;
      trace := trace + [e];
    }

    // ----- reads

    method Held() returns (held: bool)
      requires Valid()
      modifies this`trace
      ensures Valid() && trace == old(trace) + [PauseRead(held)]
    {
      held := *;
      Note(PauseRead(held));
    }

    method ListWorkers() returns (listed: seq<Worker>)
      requires Valid()
      modifies this`trace, this`workers
      ensures Valid() && trace == old(trace) + [WorkersRead(listed)] && workers == listed
    {
      listed := *;
      SoundGrows(trace, WorkersRead(listed));
      hide OpOk, Sound;
      trace, workers := trace + [WorkersRead(listed)], listed;
    }

    method Sprites() returns (sprites: map<(string, string), Sprite>)
      requires Valid()
      modifies this`trace
      ensures Valid() && trace == old(trace) + [SpritesRead(sprites)]
    {
      sprites := *;
      Note(SpritesRead(sprites));
    }

    method Idle(terminal: string, env: Env) returns (idle: Option<bool>)
      requires Valid()
      modifies this`trace
      ensures Valid() && trace == old(trace) + [IdleRead(terminal, env, idle)]
    {
      idle := *;
      Note(IdleRead(terminal, env, idle));
    }

    method PresenceOf(terminal: string, env: Env) returns (presence: Presence)
      requires Valid()
      modifies this`trace
      ensures Valid() && trace == old(trace) + [PresenceRead(terminal, env, presence)]
    {
      presence := *;
      Note(PresenceRead(terminal, env, presence));
    }

    method TerminalsIn(path: string, env: Env) returns (list: ListAnswer)
      requires Valid()
      modifies this`trace
      ensures Valid() && trace == old(trace) + [TerminalsRead(path, env, list)]
    {
      list := *;
      Note(TerminalsRead(path, env, list));
    }

    /** A worktree on a paired host is read through Orca, which does not say whether it is clean. */
    method CheckoutAt(path: string, env: Env) returns (found: CheckoutAnswer)
      requires Valid()
      modifies this`trace
      ensures Valid() && trace == old(trace) + [CheckoutRead(path, env, found)]
      ensures found.Found? ==> found.checkout.path == path && found.checkout.environment == env
    {
      found := *;
      if found.Found? {
        found := Found(found.checkout.(path := path, environment := env));
        if env.Some? {
          found := Found(found.checkout.(dirty := false, offOrigin := 0));
        }
      }
      Note(CheckoutRead(path, env, found));
    }

    method SpriteCheckout(sprite: Sprite) returns (found: CheckoutAnswer)
      requires Valid()
      modifies this`trace
      ensures Valid() && trace == old(trace) + [SpriteRead(sprite, found)]
    {
      found := *;
      Note(SpriteRead(sprite, found));
    }

    method LookUp(repository: string, head: string, place: Where) returns (answer: Lookup)
      requires Valid()
      modifies this`trace
      ensures Valid() && trace == old(trace) + [HeadRead(repository, head, place, answer)]
    {
      answer := *;
      Note(HeadRead(repository, head, place, answer));
    }

    method Registered(path: string) returns (registered: bool)
      requires Valid()
      modifies this`trace
      ensures Valid() && trace == old(trace) + [RegisteredRead(path, registered)]
    {
      registered := *;
      Note(RegisteredRead(path, registered));
    }

    method Holder(path: string, panes: set<string>) returns (busy: bool)
      requires Valid()
      modifies this`trace
      ensures Valid() && trace == old(trace) + [HolderRead(path, panes, busy)]
    {
      busy := *;
      Note(HolderRead(path, panes, busy));
    }

    method NowMs() returns (ms: int)
      requires Valid()
      modifies this`trace
      ensures Valid() && trace == old(trace) + [ClockRead(ms)]
    {
      ms := *;
      Note(ClockRead(ms));
    }

    method IsDirectory(path: string) returns (there: bool)
      requires Valid()
      modifies this`trace
      ensures Valid() && trace == old(trace) + [DirectoryRead(path, there)]
    {
      there := *;
      Note(DirectoryRead(path, there));
    }

    // ----- operations: each may be called only when the trace justifies it

    method Stop(dispatch: string) returns (stopped: StopAnswer)
      requires Valid() && JustUnpaused(trace)
      modifies this`trace, this`ended
      ensures Valid() && trace == old(trace) + [StopOp(dispatch, stopped)]
      ensures ended == old(ended) + if stopped.State? then {dispatch} else {}
    {
      stopped := *;
      SoundGrows(trace, StopOp(dispatch, stopped));
      hide OpOk, Sound;
      trace, ended := trace + [StopOp(dispatch, stopped)], ended + if stopped.State? then {dispatch} else {};
    }

    method Abandon(dispatch: string) returns (stopped: StopAnswer)
      requires Valid() && OpOk(trace, AbandonOp(dispatch, Fenced))
      modifies this`trace, this`ended
      ensures Valid() && trace == old(trace) + [AbandonOp(dispatch, stopped)]
      ensures ended == old(ended) + if stopped.State? then {dispatch} else {}
    {
      stopped := *;
      SoundGrows(trace, AbandonOp(dispatch, stopped));
      hide OpOk, Sound;
      trace, ended := trace + [AbandonOp(dispatch, stopped)], ended + if stopped.State? then {dispatch} else {};
    }

    method Release(dispatch: string) returns (released: bool)
      requires Valid() && OpOk(trace, ReleaseOp(dispatch, true))
      modifies this`trace
      ensures Valid() && trace == old(trace) + [ReleaseOp(dispatch, released)]
    {
      released := *;
      Note(ReleaseOp(dispatch, released));
    }

    method Close(terminal: string, env: Env) returns (refused: bool)
      requires Valid() && OpOk(trace, CloseOp(terminal, env, false))
      modifies this`trace
      ensures Valid() && trace == old(trace) + [CloseOp(terminal, env, refused)]
    {
      refused := *;
      Note(CloseOp(terminal, env, refused));
    }

    method Remove(path: string, env: Env) returns (removed: RemoveAnswer)
      requires Valid() && OpOk(trace, RemoveOp(path, env, Removed))
      modifies this`trace
      ensures Valid() && trace == old(trace) + [RemoveOp(path, env, removed)]
    {
      removed := *;
      Note(RemoveOp(path, env, removed));
    }

    method GitRemove(path: string) returns (refused: bool)
      requires Valid() && OpOk(trace, GitRemoveOp(path, false))
      modifies this`trace
      ensures Valid() && trace == old(trace) + [GitRemoveOp(path, refused)]
    {
      refused := *;
      Note(GitRemoveOp(path, refused));
    }

    method Destroy(sprite: Sprite) returns (refused: bool)
      requires Valid() && OpOk(trace, DestroyOp(sprite, false))
      modifies this`trace
      ensures Valid() && trace == old(trace) + [DestroyOp(sprite, refused)]
    {
      refused := *;
      Note(DestroyOp(sprite, refused));
    }

    method Forget(environment: string) returns (refused: bool)
      requires Valid() && OpOk(trace, ForgetOp(environment, false))
      modifies this`trace
      ensures Valid() && trace == old(trace) + [ForgetOp(environment, refused)]
    {
      refused := *;
      Note(ForgetOp(environment, refused));
    }
  }
}
