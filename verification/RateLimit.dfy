/**
 aiSlot: at most 30 model calls a minute, kept in a list of times that lives in the browser's storage. Any
 number of pages share the storage; each reads its clock, then the list, then its clock again, then writes
 the list, and other pages may do the same in between.
 */
module RateLimit {
  import opened Options

  type Time = real

  const AI_RPM := 30
  const MINUTE := 60000.0

  /** A stored entry: a number, or anything else JSON can hold. */
  datatype Item = Number(t: Time) | Junk

  // ----- counting

  /** How many of `ts` are at or after `lo`. */
  function CountFrom(ts: seq<Time>, lo: Time): (n: nat)
    ensures n <= |ts|
  {
    if ts == [] then 0 else CountFrom(ts[..|ts| - 1], lo) + if ts[|ts| - 1] >= lo then 1 else 0
  }

  /** How many of `ts` fall in the minute that starts at `w`. */
  function InMinute(ts: seq<Time>, w: Time): (n: nat)
    ensures n <= CountFrom(ts, w)
  {
    if ts == [] then 0 else InMinute(ts[..|ts| - 1], w) + if w <= ts[|ts| - 1] < w + 60000.0 then 1 else 0
  }

  lemma CountPush(ts: seq<Time>, t: Time, lo: Time)
    ensures CountFrom(ts + [t], lo) == CountFrom(ts, lo) + if t >= lo then 1 else 0
    ensures InMinute(ts + [t], lo) == InMinute(ts, lo) + if lo <= t < lo + 60000.0 then 1 else 0
  {
    assert (ts + [t])[..|ts|] == ts;
  }

  lemma {:induction false} CountSplits(a: seq<Time>, b: seq<Time>, lo: Time)
    ensures CountFrom(a + b, lo) == CountFrom(a, lo) + CountFrom(b, lo)
  {
    if b == [] {
      assert a + b == a;
    } else {
      assert (a + b)[..|a + b| - 1] == a + b[..|b| - 1];
      CountSplits(a, b[..|b| - 1], lo);
    }
  }

  // ----- what is read

  function Numbers(items: seq<Item>): seq<Time> {
    if items == [] then [] else Numbers(items[..|items| - 1]) + if items[|items| - 1].Number? then [items[|items| - 1].t] else []
  }

  /** The entries less than a minute old, or ahead of the clock. */
  function Young(ts: seq<Time>, now: Time): seq<Time> {
    if ts == [] then [] else Young(ts[..|ts| - 1], now) + if now - ts[|ts| - 1] < MINUTE then [ts[|ts| - 1]] else []
  }

  lemma {:induction false} YoungCounts(ts: seq<Time>, now: Time, lo: Time)
    requires lo > now - MINUTE
    ensures CountFrom(Young(ts, now), lo) == CountFrom(ts, lo)
  {
    if ts != [] {
      YoungCounts(ts[..|ts| - 1], now, lo);
      assert Young(ts[..|ts| - 1], now) + [] == Young(ts[..|ts| - 1], now);
      if now - ts[|ts| - 1] < MINUTE { CountPush(Young(ts[..|ts| - 1], now), ts[|ts| - 1], lo); }
    }
  }

  lemma {:induction false} YoungIsYoung(ts: seq<Time>, now: Time)
    ensures forall i :: 0 <= i < |Young(ts, now)| ==> now - Young(ts, now)[i] < MINUTE
  {
    if ts != [] {
      YoungIsYoung(ts[..|ts| - 1], now);
    }
  }

  function InsertTime(t: Time, ts: seq<Time>): seq<Time> {
    if ts == [] || t <= ts[0] then [t] + ts else [ts[0]] + InsertTime(t, ts[1..])
  }

  /** The library's sort by increasing time. */
  function SortTimes(ts: seq<Time>): seq<Time> {
    if ts == [] then [] else InsertTime(ts[0], SortTimes(ts[1..]))
  }

  lemma {:induction false} InsertCounts(t: Time, ts: seq<Time>, lo: Time)
    ensures CountFrom(InsertTime(t, ts), lo) == CountFrom(ts, lo) + if t >= lo then 1 else 0
    ensures |InsertTime(t, ts)| == |ts| + 1
  {
    CountPush([], t, lo);
    if ts == [] || t <= ts[0] {
      CountSplits([t], ts, lo);
    } else {
      InsertCounts(t, ts[1..], lo);
      CountSplits([ts[0]], ts[1..], lo);
      assert [ts[0]] + ts[1..] == ts;
      CountSplits([ts[0]], InsertTime(t, ts[1..]), lo);
    }
  }

  lemma {:induction false} SortCounts(ts: seq<Time>, lo: Time)
    ensures CountFrom(SortTimes(ts), lo) == CountFrom(ts, lo) && |SortTimes(ts)| == |ts|
  {
    if ts != [] {
      SortCounts(ts[1..], lo);
      InsertCounts(ts[0], SortTimes(ts[1..]), lo);
      CountSplits([ts[0]], ts[1..], lo);
      assert [ts[0]] + ts[1..] == ts;
      CountPush([], ts[0], lo);
      assert [] + [ts[0]] == [ts[0]];
    }
  }

  lemma {:induction false} SortFirst(ts: seq<Time>)
    ensures |SortTimes(ts)| == |ts|
    ensures ts != [] ==> SortTimes(ts)[0] in ts && forall i :: 0 <= i < |ts| ==> SortTimes(ts)[0] <= ts[i]
  {
    SortCounts(ts, 0.0);
    if ts != [] {
      SortFirst(ts[1..]);
      SortCounts(ts[1..], 0.0);
      assert ts == [ts[0]] + ts[1..];
      if |ts| > 1 {
        var rest := SortTimes(ts[1..]);
        assert rest != [];
        assert SortTimes(ts)[0] == if ts[0] <= rest[0] then ts[0] else rest[0];
      }
    }
  }

  lemma {:induction false} InsertKeeps(t: Time, ts: seq<Time>)
    ensures multiset(InsertTime(t, ts)) == multiset{t} + multiset(ts)
  {
    if ts != [] && t > ts[0] {
      InsertKeeps(t, ts[1..]);
      assert ts == [ts[0]] + ts[1..];
    }
  }

  lemma {:induction false} InsertSorts(t: Time, ts: seq<Time>)
    requires Rising(ts)
    ensures Rising(InsertTime(t, ts))
  {
    if ts != [] && t > ts[0] {
      var rest := InsertTime(t, ts[1..]);
      InsertSorts(t, ts[1..]);
      InsertKeeps(t, ts[1..]);
      forall k | 0 <= k < |rest|
        ensures ts[0] <= rest[k]
      {
        assert rest[k] in multiset(rest);
        assert rest[k] == t || rest[k] in ts[1..];
      }
      RisingCons(ts[0], rest);
    }
  }

  lemma RisingCons(t: Time, ts: seq<Time>)
    requires Rising(ts) && forall k :: 0 <= k < |ts| ==> t <= ts[k]
    ensures Rising([t] + ts)
  {
  }

  predicate Rising(ts: seq<Time>) {
    forall i, j :: 0 <= i < j < |ts| ==> ts[i] <= ts[j]
  }

  lemma {:induction false} SortSorts(ts: seq<Time>)
    ensures Rising(SortTimes(ts)) && multiset(SortTimes(ts)) == multiset(ts)
  {
    if ts != [] {
      SortSorts(ts[1..]);
      InsertSorts(ts[0], SortTimes(ts[1..]));
      InsertKeeps(ts[0], SortTimes(ts[1..]));
      assert ts == [ts[0]] + ts[1..];
    }
  }

  lemma {:induction false} YoungExactly(ts: seq<Time>, now: Time, t: Time)
    ensures multiset(Young(ts, now))[t] == if now - t < 60000.0 then multiset(ts)[t] else 0
  {
    if ts != [] {
      var n := |ts| - 1;
      YoungExactly(ts[..n], now, t);
      assert ts == ts[..n] + [ts[n]];
    }
  }

  lemma {:induction false} NumbersExactly(items: seq<Item>, t: Time)
    ensures multiset(Numbers(items))[t] == multiset(items)[Number(t)]
  {
    if items != [] {
      var n := |items| - 1;
      NumbersExactly(items[..n], t);
      assert items == items[..n] + [items[n]];
    }
  }

  /** aiRecent: what the storage holds, as far as it is a list of numbers, younger than a minute. */
  function Recent(saved: Option<seq<Item>>, now: Time): seq<Time> {
    SortTimes(Young(if saved.Some? then Numbers(saved.value) else [], now))
  }

  // ----- one turn of one page

  /** What may go wrong: a read finds nothing, a write is dropped, another page writes during a page's turn, the clock is changed. */
  datatype Faults = Faults(readFails: bool, writeFails: bool, crossings: bool, clockJumps: bool)

  /**
   The two accesses of a turn, at the moment `at`: aiRecent's read, its clock read at `now`; and what follows
   once the clock was read again at `later`.
   */
  datatype Event =
    | Look(page: nat, now: Time, at: Time, unread: bool)
    | Settle(page: nat, later: Time, at: Time, unwritten: bool)

  /** A turn under way: the young entries it saw, and when it read them. */
  datatype Turn = Turn(recent: seq<Time>, since: Time)

  /**
   The stored list (None if it is no list), the grants so far, the moment, the turns under way, and which of
   those have read the list as it stands.
   */
  datatype State = State(saved: Option<seq<Item>>, grants: seq<Time>, clock: Time, turns: map<nat, Turn>, current: set<nat>)

  function AsItems(ts: seq<Time>): (items: seq<Item>)
    ensures |items| == |ts|
  {
    if ts == [] then [] else AsItems(ts[..|ts| - 1]) + [Number(ts[|ts| - 1])]
  }

  lemma {:induction false} ItemsBack(ts: seq<Time>)
    ensures Numbers(AsItems(ts)) == ts
  {
    if ts != [] {
      ItemsBack(ts[..|ts| - 1]);
      var items := AsItems(ts);
      assert items[..|items| - 1] == AsItems(ts[..|ts| - 1]);
    }
  }

  /** What the page sees of the list. */
  function Seen(saved: Option<seq<Item>>, e: Event): seq<Time>
    requires e.Look?
  {
    Recent(if e.unread then None else saved, e.now)
  }

  function LastRpm(ts: seq<Time>): seq<Time> {
    if |ts| > AI_RPM then ts[|ts| - AI_RPM..] else ts
  }

  /** The page's settling grants a slot. */
  predicate Grants(s: State, e: Event) {
    e.Settle? && e.page in s.turns && |s.turns[e.page].recent| < AI_RPM
  }

  function Step(s: State, e: Event): State {
    match e
    case Look(page, _, at, _) => State(s.saved, s.grants, at, s.turns[page := Turn(Seen(s.saved, e), at)], s.current + {page})
    case Settle(page, later, at, unwritten) =>
      if !Grants(s, e) then State(s.saved, s.grants, at, s.turns - {page}, s.current - {page})
      else if unwritten then State(s.saved, s.grants + [later], at, s.turns - {page}, s.current - {page})
      else State(Some(AsItems(LastRpm(s.turns[page].recent + [later]))), s.grants + [later], at, s.turns - {page}, {})
  }

  /** The limiter as the pages run it. */
  class Limiter {
    var saved: Option<seq<Item>>
    var turns: map<nat, Turn>
    ghost var grants: seq<Time>
    ghost var clock: Time
    ghost var current: set<nat>

    ghost function Now(): State
      reads this
    {
      State(saved, grants, clock, turns, current)
    }

    constructor (stored: Option<seq<Item>>, ghost start: Time)
      ensures Now() == Begin(stored, start)
    {
      saved, turns, grants, clock, current := stored, map[], [], start, {};
    }

    /** aiRecent on one page. */
    method Read(e: Event)
      requires e.Look?
      modifies this
      ensures Now() == Step(old(Now()), e)
    {
      var found := if e.unread || saved.None? then [] else Numbers(saved.value);
      turns := turns[e.page := Turn(SortTimes(Young(found, e.now)), e.at)];
      clock, current := e.at, current + {e.page};
    }

    /** The rest of the turn: a slot, or how long to wait before the next turn. */
    method Finish(e: Event) returns (wait: Option<Time>)
      requires e.Settle? && e.page in turns
      modifies this
      ensures Now() == Step(old(Now()), e)
      ensures wait.None? <==> |old(turns)[e.page].recent| < 30
      ensures wait.Some? ==> old(turns)[e.page].recent != [] && wait.value == 60000.0 - (e.later - old(turns)[e.page].recent[0]) + 50.0
    {
      var recent := turns[e.page].recent;
      turns := turns - {e.page};
      clock := e.at;
      if |recent| < AI_RPM {
        recent := recent + [e.later];
        if !e.unwritten {
          saved := Some(AsItems(LastRpm(recent)));
        }
        grants, current := grants + [e.later], if e.unwritten then current - {e.page} else {};
        return None;
      }
      current := current - {e.page};
      wait := Some(MINUTE - (e.later - recent[0]) + 50.0);
    }

    /** A whole turn of aiSlot's loop with no other page's access in between. */
    method Slot(look: Event, settle: Event) returns (wait: Option<Time>)
      requires look.Look? && settle.Settle? && settle.page == look.page
      modifies this
      ensures Now() == Step(Step(old(Now()), look), settle)
      ensures wait.None? <==> |Seen(old(saved), look)| < 30
      ensures wait.Some? ==> Seen(old(saved), look) != [] && wait.value == 60000.0 - (settle.later - Seen(old(saved), look)[0]) + 50.0
    {
      Read(look);
      wait := Finish(settle);
    }
  }

  // ----- every run

  /** What may happen next: every page follows its two accesses, and a clock read before an access is not ahead of it. */
  predicate Allowed(f: Faults, s: State, e: Event) {
    s.clock <= e.at && match e
    case Look(page, now, at, unread) => page !in s.turns && (f.clockJumps || now <= at) && (unread ==> f.readFails)
    case Settle(page, later, at, unwritten) =>
      && page in s.turns && (f.clockJumps || s.turns[page].since <= later <= at) && (unwritten ==> f.writeFails)
      && (Grants(s, e) && page !in s.current ==> f.crossings)
  }

  /** Accesses of any pages in any order that the faults allow. */
  predicate Possible(f: Faults, s: State, events: seq<Event>)
    decreases |events|
  {
    events == [] || (Allowed(f, s, events[0]) && Possible(f, Step(s, events[0]), events[1..]))
  }

  function Run(s: State, events: seq<Event>): State
    decreases |events|
  {
    if events == [] then s else Run(Step(s, events[0]), events[1..])
  }

  function Begin(saved: Option<seq<Item>>, start: Time): State {
    State(saved, [], start, map[], {})
  }

  function Stored(saved: Option<seq<Item>>): seq<Time> {
    if saved.Some? then Numbers(saved.value) else []
  }

  /** `known` holds every grant since a minute before `t`. */
  ghost predicate Knows(known: seq<Time>, grants: seq<Time>, t: Time) {
    forall lo: Time :: lo > t - MINUTE ==> CountFrom(grants, lo) <= CountFrom(known, lo)
  }

  /** The storage, and every turn that has read it as it stands, still know every grant of the last minute. */
  ghost predicate Remembers(s: State) {
    && Knows(Stored(s.saved), s.grants, s.clock)
    && forall p :: p in s.current ==> p in s.turns && s.turns[p].since <= s.clock && Knows(s.turns[p].recent, s.grants, s.turns[p].since)
  }

  ghost predicate WithinLimit(grants: seq<Time>) {
    forall w: Time :: InMinute(grants, w) <= 30
  }

  lemma SeenCounts(saved: Option<seq<Item>>, e: Event, lo: Time)
    requires e.Look? && !e.unread && lo > e.now - MINUTE
    ensures CountFrom(Seen(saved, e), lo) == CountFrom(Stored(saved), lo)
  {
    SortCounts(Young(Stored(saved), e.now), lo);
    YoungCounts(Stored(saved), e.now, lo);
  }

  /** A page sees exactly the stored numbers less than a minute old, in order, and nothing if it cannot read. */
  lemma SeenExactly(saved: Option<seq<Item>>, e: Event, t: Time)
    requires e.Look?
    ensures forall i, j :: 0 <= i < j < |Seen(saved, e)| ==> Seen(saved, e)[i] <= Seen(saved, e)[j]
    ensures multiset(Seen(saved, e))[t]
         == if !e.unread && saved.Some? && e.now - t < 60000.0 then multiset(saved.value)[Number(t)] else 0
  {
    var items := if e.unread || saved.None? then [] else saved.value;
    SortSorts(Young(Numbers(items), e.now));
    YoungExactly(Numbers(items), e.now, t);
    NumbersExactly(items, t);
  }

  lemma LookRemembers(s: State, e: Event)
    requires Remembers(s) && e.Look? && Allowed(NO_FAULTS, s, e)
    ensures Remembers(Step(s, e))
  {
    hide CountFrom, Numbers, Recent;
    forall lo: Time | lo > e.at - MINUTE
      ensures CountFrom(s.grants, lo) <= CountFrom(Seen(s.saved, e), lo)
    {
      SeenCounts(s.saved, e, lo);
    }
  }

  lemma SettleRemembers(s: State, e: Event)
    requires Remembers(s) && e.Settle? && Allowed(NO_FAULTS, s, e)
    ensures Remembers(Step(s, e))
  {
    hide CountFrom, Numbers, AsItems;
    if Grants(s, e) {
      var recent := s.turns[e.page].recent;
      ItemsBack(recent + [e.later]);
      forall lo: Time | lo > e.at - MINUTE
        ensures CountFrom(s.grants + [e.later], lo) <= CountFrom(recent + [e.later], lo)
      {
        CountPush(recent, e.later, lo);
        CountPush(s.grants, e.later, lo);
      }
    }
  }

  /** A grant on the list as it stands never makes 31 in any minute. */
  lemma StepWithinLimit(s: State, e: Event)
    requires Remembers(s) && WithinLimit(s.grants) && Allowed(NO_FAULTS, s, e)
    ensures WithinLimit(Step(s, e).grants)
  {
    hide CountFrom, InMinute, Numbers, AsItems, Recent;
    if Grants(s, e) {
      forall w: Time
        ensures InMinute(s.grants + [e.later], w) <= 30
      {
        CountPush(s.grants, e.later, w);
        if w <= e.later < w + MINUTE {
          var recent := s.turns[e.page].recent;
          assert InMinute(s.grants, w) <= CountFrom(s.grants, w) <= CountFrom(recent, w) <= |recent|;
        }
      }
    }
  }

  const NO_FAULTS := Faults(false, false, false, false)

  lemma {:induction false} RunWithinLimit(s: State, events: seq<Event>)
    requires Possible(NO_FAULTS, s, events) && Remembers(s) && WithinLimit(s.grants)
    ensures WithinLimit(Run(s, events).grants)
    decreases |events|
  {
    hide Remembers, WithinLimit, Step, Allowed;
    if events != [] {
      if events[0].Look? { LookRemembers(s, events[0]); } else { SettleRemembers(s, events[0]); }
      StepWithinLimit(s, events[0]);
      RunWithinLimit(Step(s, events[0]), events[1..]);
    }
  }

  /** No run from any stored content grants more than 30 slots in a minute, whatever minute is looked at. */
  ghost predicate LimitHolds(f: Faults) {
    forall saved: Option<seq<Item>>, start: Time, events: seq<Event> ::
      Possible(f, Begin(saved, start), events) ==> WithinLimit(Run(Begin(saved, start), events).grants)
  }

  /**
   The limit holds over every run of any number of pages just when no read fails, no write fails, no page
   is granted a slot on a list that another page has written since, and nobody changes the clock.
   */
  lemma LimitHoldsExactly(f: Faults)
    ensures LimitHolds(f) <==> f == NO_FAULTS
  {
    hide WithinLimit, Run, Possible, Remembers;
    if f == NO_FAULTS {
      forall saved: Option<seq<Item>>, start: Time, events: seq<Event> | Possible(f, Begin(saved, start), events)
        ensures WithinLimit(Run(Begin(saved, start), events).grants)
      {
        NothingYet(saved, start);
        RunWithinLimit(Begin(saved, start), events);
      }
    } else if f.crossings {
      TwoPages(f);
    } else if f.clockJumps {
      SetBack(f);
    } else {
      Burst(f);
    }
  }

  lemma NothingYet(saved: Option<seq<Item>>, start: Time)
    ensures Remembers(Begin(saved, start)) && WithinLimit([])
  {
  }

  // ----- runs that break the limit

  const EMPTY_STORE := Begin(None, 0.0)

  /** One whole turn of page 0 in the first millisecond. */
  function OneTurn(unread: bool, unwritten: bool): seq<Event> {
    [Look(0, 0.0, 0.0, unread), Settle(0, 0.0, 0.0, unwritten)]
  }

  /** `n` turns one after another. */
  function Turns(unread: bool, unwritten: bool, n: nat): seq<Event> {
    if n == 0 then [] else Turns(unread, unwritten, n - 1) + OneTurn(unread, unwritten)
  }

  lemma {:induction false} RunSplits(f: Faults, s: State, a: seq<Event>, b: seq<Event>)
    ensures Run(s, a + b) == Run(Run(s, a), b)
    ensures Possible(f, s, a + b) <==> Possible(f, s, a) && Possible(f, Run(s, a), b)
    decreases |a|
  {
    hide Step, Allowed;
    if a == [] {
      assert a + b == b;
    } else {
      assert (a + b)[0] == a[0] && (a + b)[1..] == a[1..] + b;
      RunSplits(f, Step(s, a[0]), a[1..], b);
    }
  }

  lemma RunTwo(f: Faults, s: State, x: Event, y: Event)
    ensures Run(s, [x, y]) == Step(Step(s, x), y)
    ensures Possible(f, s, [x, y]) <==> Allowed(f, s, x) && Allowed(f, Step(s, x), y)
  {
    hide Step, Allowed;
    assert [x, y][1..] == [y] && [y][1..] == [];
    assert Run(Step(s, x), [y]) == Run(Step(Step(s, x), y), []);
    assert Possible(f, Step(s, x), [y]) <==> Allowed(f, Step(s, x), y) && Possible(f, Step(Step(s, x), y), []);
  }

  /** `n` grants at time 0. */
  function Zeros(n: nat): (ts: seq<Time>)
    ensures |ts| == n
  {
    if n == 0 then [] else Zeros(n - 1) + [0.0]
  }

  lemma {:induction false} ZerosInMinute(n: nat)
    ensures InMinute(Zeros(n), 0.0) == n
  {
    if n > 0 {
      ZerosInMinute(n - 1);
      CountPush(Zeros(n - 1), 0.0, 0.0);
    }
  }

  /** With failing reads or writes the list always looks empty, so every turn is granted. */
  lemma {:induction false} FailingTurns(f: Faults, n: nat)
    requires f.readFails || f.writeFails
    ensures var events := Turns(f.readFails, f.writeFails, n); var s := Run(EMPTY_STORE, events);
      Possible(f, EMPTY_STORE, events) && s == State(s.saved, Zeros(n), 0.0, map[], {}) && (f.readFails || s.saved.None?)
  {
    hide Run, Possible;
    if n == 0 {
      NoEvents(f, EMPTY_STORE);
    } else {
      FailingTurns(f, n - 1);
      var events := Turns(f.readFails, f.writeFails, n - 1);
      var s := Run(EMPTY_STORE, events);
      RunSplits(f, EMPTY_STORE, events, OneTurn(f.readFails, f.writeFails));
      RunTwo(f, s, Look(0, 0.0, 0.0, f.readFails), Settle(0, 0.0, 0.0, f.writeFails));
      assert Seen(s.saved, Look(0, 0.0, 0.0, f.readFails)) == [];
      assert map[0 := Turn([], 0.0)] - {0} == map[];
    }
  }

  lemma NoEvents(f: Faults, s: State)
    ensures Run(s, []) == s && Possible(f, s, [])
  {
  }

  /** Grants of 31 slots in one millisecond break the limit. */
  lemma TooMany(f: Faults, events: seq<Event>)
    requires Possible(f, EMPTY_STORE, events) && Run(EMPTY_STORE, events).grants == Zeros(AI_RPM + 1)
    ensures !LimitHolds(f)
  {
    hide Run, Possible, Zeros, InMinute;
    ZerosInMinute(AI_RPM + 1);
    assert !WithinLimit(Run(EMPTY_STORE, events).grants);
  }

  lemma Burst(f: Faults)
    requires f.readFails || f.writeFails
    ensures !LimitHolds(f)
  {
    hide Run, Possible, Turns, Zeros, LimitHolds;
    FailingTurns(f, AI_RPM + 1);
    TooMany(f, Turns(f.readFails, f.writeFails, AI_RPM + 1));
  }

  lemma {:induction false} ZerosStay(n: nat)
    ensures Young(Zeros(n), 0.0) == Zeros(n) && SortTimes(Zeros(n)) == Zeros(n)
  {
    if n > 0 {
      ZerosStay(n - 1);
      assert Zeros(n)[..n - 1] == Zeros(n - 1);
      ZerosFlip(n);
      assert Zeros(n)[0] == 0.0 && Zeros(n)[1..] == Zeros(n - 1);
    }
  }

  lemma {:induction false} ZerosFlip(n: nat)
    requires n > 0
    ensures Zeros(n) == [0.0] + Zeros(n - 1)
  {
    if n > 1 {
      ZerosFlip(n - 1);
    }
  }

  /** The list as it is after `n` granted turns in the first millisecond. */
  function Filled(n: nat): State
    requires n <= AI_RPM
  {
    State(if n == 0 then None else Some(AsItems(Zeros(n))), Zeros(n), 0.0, map[], {})
  }

  lemma FilledSeen(n: nat, page: nat)
    requires n <= AI_RPM
    ensures Seen(Filled(n).saved, Look(page, 0.0, 0.0, false)) == Zeros(n)
  {
    ItemsBack(Zeros(n));
    ZerosStay(n);
  }

  lemma {:induction false} HonestTurns(f: Faults, n: nat)
    requires n <= AI_RPM
    ensures Possible(f, EMPTY_STORE, Turns(false, false, n)) && Run(EMPTY_STORE, Turns(false, false, n)) == Filled(n)
  {
    hide Run, Possible;
    if n == 0 {
      NoEvents(f, EMPTY_STORE);
    } else {
      HonestTurns(f, n - 1);
      RunSplits(f, EMPTY_STORE, Turns(false, false, n - 1), OneTurn(false, false));
      RunTwo(f, Filled(n - 1), Look(0, 0.0, 0.0, false), Settle(0, 0.0, 0.0, false));
      FilledSeen(n - 1, 0);
      hide Seen;
      assert map[0 := Turn(Zeros(n - 1), 0.0)] - {0} == map[];
    }
  }

  /** Two pages read a list of 29 entries, and each is granted a slot. */
  const CROSSING := [Look(0, 0.0, 0.0, false), Look(1, 0.0, 0.0, false), Settle(0, 0.0, 0.0, false), Settle(1, 0.0, 0.0, false)]

  lemma CrossingGrants(f: Faults)
    requires f.crossings
    ensures Possible(f, Filled(29), CROSSING) && Run(Filled(29), CROSSING).grants == Zeros(31)
  {
    var s := Filled(29);
    FilledSeen(29, 0);
    FilledSeen(29, 1);
    RunTwo(f, s, CROSSING[0], CROSSING[1]);
    var u := Step(Step(s, CROSSING[0]), CROSSING[1]);
    hide Seen, Run, Possible, AsItems;
    assert u.turns == map[0 := Turn(Zeros(29), 0.0), 1 := Turn(Zeros(29), 0.0)];
    RunTwo(f, u, CROSSING[2], CROSSING[3]);
    RunSplits(f, s, CROSSING[..2], CROSSING[2..]);
    assert CROSSING[..2] == [CROSSING[0], CROSSING[1]] && CROSSING[2..] == [CROSSING[2], CROSSING[3]];
    assert CROSSING[..2] + CROSSING[2..] == CROSSING;
  }

  /** So a minute holds 31 grants although no read and no write ever failed. */
  lemma TwoPages(f: Faults)
    requires f.crossings
    ensures !LimitHolds(f)
  {
    hide Run, Possible, Turns, Zeros, LimitHolds;
    HonestTurns(f, 29);
    CrossingGrants(f);
    RunSplits(f, EMPTY_STORE, Turns(false, false, 29), CROSSING);
    TooMany(f, Turns(false, false, 29) + CROSSING);
  }

  /** Beside 30 grants at time 0: one when the clock is a minute ahead, and one when it is back. */
  const JUMP := [Look(0, MINUTE, MINUTE, false), Settle(0, MINUTE, MINUTE, false), Look(0, 0.0, MINUTE, false), Settle(0, 0.0, MINUTE, false)]

  lemma {:induction false} ZerosOld(n: nat)
    ensures Young(Zeros(n), MINUTE) == []
  {
    if n > 0 { ZerosOld(n - 1); }
  }

  /** The list and the grants once the clock was a minute ahead. */
  const JUMPED := State(Some(AsItems([MINUTE])), Zeros(30) + [MINUTE], MINUTE, map[], {})

  lemma JumpAhead(f: Faults)
    requires f.clockJumps
    ensures Possible(f, Filled(30), JUMP[..2]) && Run(Filled(30), JUMP[..2]) == JUMPED
  {
    var s := Filled(30);
    SeenNone();
    hide Run, Possible, AsItems, Zeros, Recent, Numbers;
    RunTwo(f, s, JUMP[0], JUMP[1]);
    assert map[0 := Turn([], MINUTE)] - {0} == map[];
    assert [] + [MINUTE] == [MINUTE];
    assert JUMP[..2] == [JUMP[0], JUMP[1]];
  }

  lemma JumpBack(f: Faults)
    requires f.clockJumps
    ensures Possible(f, JUMPED, JUMP[2..]) && Run(JUMPED, JUMP[2..]).grants == Zeros(30) + [MINUTE] + [0.0]
  {
    SeenOne();
    hide Run, Possible, AsItems, Zeros, Recent, Numbers;
    RunTwo(f, JUMPED, JUMP[2], JUMP[3]);
    assert JUMP[2..] == [JUMP[2], JUMP[3]];
  }

  lemma JumpGrants(f: Faults)
    requires f.clockJumps
    ensures Possible(f, Filled(30), JUMP) && Run(Filled(30), JUMP).grants == Zeros(30) + [MINUTE] + [0.0]
  {
    hide Run, Possible, Zeros, AsItems;
    JumpAhead(f);
    JumpBack(f);
    RunSplits(f, Filled(30), JUMP[..2], JUMP[2..]);
    assert JUMP[..2] + JUMP[2..] == JUMP;
  }

  lemma SeenNone()
    ensures Recent(Filled(30).saved, MINUTE) == []
  {
    ItemsBack(Zeros(30));
    ZerosOld(30);
  }

  lemma SeenOne()
    ensures Recent(Some(AsItems([MINUTE])), 0.0) == [MINUTE]
  {
    ItemsBack([MINUTE]);
    assert Young([MINUTE], 0.0) == [MINUTE] && SortTimes([MINUTE]) == [MINUTE];
  }

  /** So a clock that is put forward and back lets 31 into one of its minutes. */
  lemma SetBack(f: Faults)
    requires f.clockJumps
    ensures !LimitHolds(f)
  {
    hide Run, Possible, Turns, Zeros, InMinute;
    HonestTurns(f, 30);
    JumpGrants(f);
    var events := Turns(false, false, 30) + JUMP;
    RunSplits(f, EMPTY_STORE, Turns(false, false, 30), JUMP);
    ZerosInMinute(30);
    CountPush(Zeros(30), MINUTE, 0.0);
    CountPush(Zeros(30) + [MINUTE], 0.0, 0.0);
    assert !WithinLimit(Run(EMPTY_STORE, events).grants);
  }

  // ----- waiting

  /** The first entry a page sees is the oldest that counts: it is not told to wait for a younger one. */
  lemma FirstIsOldest(saved: Option<seq<Item>>, e: Event)
    requires e.Look? && !e.unread
    ensures |Seen(saved, e)| == |Young(Stored(saved), e.now)|
    ensures forall i :: 0 <= i < |Seen(saved, e)| ==> Seen(saved, e)[0] <= Young(Stored(saved), e.now)[i]
  {
    SortFirst(Young(Stored(saved), e.now));
  }

  /** After the wait, none if it comes out negative, nothing as old as the oldest entry a page saw counts any more. */
  lemma WaitFreesOldest(recent: seq<Time>, later: Time, stored: seq<Time>, now: Time)
    requires recent != [] && now >= later && now >= later + (60000.0 - (later - recent[0]) + 50.0)
    ensures forall i :: 0 <= i < |Young(stored, now)| ==> Young(stored, now)[i] > recent[0]
  {
    YoungIsYoung(stored, now);
  }
}
