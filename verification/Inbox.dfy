/**
 Dating the lines of an inbox file. Lines are read upwards from the newest; a cursor carries the latest
 known time, and marks saved earlier say how long the file was at what time. The clock a header shows is
 taken as parsed, and zones have a fixed offset.
 */
module Inbox {
  import opened Options

  /** Microseconds. */
  type Moment = int

  const HOUR: int := 3_600_000_000
  const DAY: int := 24 * HOUR
  const SLACK: int := 2 * HOUR
  const FOLLOW: int := 16 * HOUR
  const NEW_YEAR: int := 180 * DAY

  /**
   A clock in a header: a time of day in a zone, or a date with its time, along with the same date a year
   earlier, for when the year is a guess.
   */
  datatype Clock = Daily(offset: int, time: int) | Dated(moment: Moment, yearBefore: Moment, yearKnown: bool)

  predicate ClockOk(c: Clock) {
    c.Daily? ==> 0 <= c.time < DAY
  }

  // ----- placing a clock

  /** The start of the day in the zone, by its own clock. */
  function Midnight(at: Moment, offset: int): (m: Moment)
    ensures m <= at < m + DAY
  {
    (at + offset) / DAY * DAY - offset
  }

  /** Back a day at a time until no more than two hours ahead. */
  function Back(moment: Moment, cursor: Moment): (m: Moment)
    ensures m <= cursor + SLACK && m <= moment
    ensures m == moment || m > cursor + SLACK - DAY
    ensures (moment - m) % DAY == 0
    decreases moment - (cursor + SLACK)
  {
    if moment > cursor + SLACK then Back(moment - DAY, cursor) else moment
  }

  function PlacedAt(c: Clock, cursor: Moment): Moment {
    match c
    case Dated(moment, yearBefore, yearKnown) => if yearKnown || moment - cursor <= NEW_YEAR then moment else yearBefore
    case Daily(offset, time) => Back(Midnight(cursor, offset) + time, cursor)
  }

  method Placed(c: Clock, cursor: Moment) returns (moment: Moment)
    ensures moment == PlacedAt(c, cursor)
  {
    if c.Dated? {
      return if c.yearKnown || c.moment - cursor <= NEW_YEAR then c.moment else c.yearBefore;
    }
    moment := Midnight(cursor, c.offset) + c.time;
    while moment > cursor + SLACK
      invariant Back(moment, cursor) == PlacedAt(c, cursor)
    {
      moment := moment - DAY;
    }
  }

  /** A clock without a date reads as a moment of that time of day, within the last day or the next two hours. */
  lemma DailyIsNear(c: Clock, cursor: Moment)
    requires c.Daily? && ClockOk(c)
    ensures cursor - 24 * 3_600_000_000 < PlacedAt(c, cursor) <= cursor + 2 * 3_600_000_000
    ensures (PlacedAt(c, cursor) + c.offset - c.time) % DAY == 0
  {
    var first := Midnight(cursor, c.offset) + c.time;
    assert (first + c.offset - c.time) % DAY == 0;
    assert (first - Back(first, cursor)) % DAY == 0;
  }

  /** A date with a guessed year is taken a year back when it is more than 180 days ahead. */
  lemma DatedMeans(moment: Moment, yearBefore: Moment, yearKnown: bool, cursor: Moment)
    ensures PlacedAt(Dated(moment, yearBefore, true), cursor) == moment
    ensures PlacedAt(Dated(moment, yearBefore, yearKnown), cursor)
         == if !yearKnown && moment > cursor + 180 * 86_400_000_000 then yearBefore else moment
  {
  }

  /** `m` is the last moment with the clock's time of day that is no more than two hours ahead. */
  predicate LatestReading(m: Moment, cursor: Moment) {
    m <= cursor + 2 * 3_600_000_000 < m + 24 * 3_600_000_000
  }

  /**
   The reading is the latest one allowed, except shortly before midnight in the clock's zone: a time of
   tomorrow's first two hours reads as today's, almost a day back.
   */
  lemma LatestReadingExactly(c: Clock, cursor: Moment)
    requires c.Daily? && ClockOk(c)
    ensures LatestReading(PlacedAt(c, cursor), cursor)
       <==> cursor - Midnight(cursor, c.offset) + 2 * 3_600_000_000 < 24 * 3_600_000_000 + c.time
  {
    var first := Midnight(cursor, c.offset) + c.time;
    if first > cursor + SLACK {
      assert PlacedAt(c, cursor) == Back(first, cursor) != first;
    }
  }

  /** At half past eleven at night, half past midnight reads as this morning's, 23 hours back, not as the next hour. */
  lemma MidnightMisses()
    ensures var cursor, c := 23 * HOUR + HOUR / 2, Daily(0, HOUR / 2);
      && PlacedAt(c, cursor) == cursor - 23 * HOUR && !LatestReading(PlacedAt(c, cursor), cursor)
      && LatestReading(cursor + HOUR, cursor)
  {
    var cursor, c := 23 * HOUR + HOUR / 2, Daily(0, HOUR / 2);
    assert Midnight(cursor, 0) == 0;
    assert Back(HOUR / 2, cursor) == HOUR / 2;
  }

  // ----- the walk

  /** A line: its number in the file and the clock its header shows, which may depend on the cursor's year. */
  datatype Row = Row(number: nat, clock: Moment -> Option<Clock>)

  /** How long the file was at what time. */
  datatype Mark = Mark(count: nat, at: Moment)

  /** How a line got its time: its clock moved the cursor, it took the cursor's, or its clock stands apart. */
  datatype How = Moved | Inherited | Apart
  datatype Reading = Reading(at: Moment, how: How)

  datatype Progress = Progress(pending: seq<Mark>, cursor: Moment)

  predicate Before(a: Mark, b: Mark) {
    a.count < b.count || (a.count == b.count && a.at <= b.at)
  }

  function InsertMark(m: Mark, s: seq<Mark>): (r: seq<Mark>)
    ensures |r| == |s| + 1
  {
    if s == [] || Before(m, s[0]) then [m] + s else [s[0]] + InsertMark(m, s[1..])
  }

  /** The library's sort, by count and then time. */
  function SortMarks(marks: seq<Mark>): (s: seq<Mark>)
    ensures |s| == |marks|
  {
    if marks == [] then [] else InsertMark(marks[0], SortMarks(marks[1..]))
  }

  predicate InOrder(s: seq<Mark>) {
    forall i, j :: 0 <= i < j < |s| ==> Before(s[i], s[j])
  }

  lemma {:induction false} InsertOrders(m: Mark, s: seq<Mark>)
    requires InOrder(s)
    ensures InOrder(InsertMark(m, s)) && forall x :: x in InsertMark(m, s) <==> x == m || x in s
  {
    if s != [] && !Before(m, s[0]) {
      InsertOrders(m, s[1..]);
      assert s == [s[0]] + s[1..];
      var r := InsertMark(m, s[1..]);
      forall k | 0 <= k < |r|
        ensures Before(s[0], r[k])
      {
        assert r[k] in r;
      }
    }
  }

  lemma {:induction false} SortOrders(marks: seq<Mark>)
    ensures InOrder(SortMarks(marks)) && forall x :: x in SortMarks(marks) <==> x in marks
  {
    if marks != [] {
      SortOrders(marks[1..]);
      InsertOrders(marks[0], SortMarks(marks[1..]));
      assert marks == [marks[0]] + marks[1..];
    }
  }

  function Start(marks: seq<Mark>): Progress
    requires marks != []
  {
    var s := SortMarks(marks);
    Progress(s[..|s| - 1], s[|s| - 1].at)
  }

  function Min(a: Moment, b: Moment): Moment {
    if b < a then b else a
  }

  /** The cursor lowered to every mark that covers this line. */
  function Reached(p: Progress, number: nat): Progress
    decreases |p.pending|
  {
    if p.pending != [] && number <= p.pending[|p.pending| - 1].count then
      Reached(Progress(p.pending[..|p.pending| - 1], Min(p.cursor, p.pending[|p.pending| - 1].at)), number)
    else p
  }

  function DatedBy(row: Row, cursor: Moment): Reading {
    match row.clock(cursor)
    case None => Reading(cursor, Inherited)
    case Some(c) =>
      var moment := PlacedAt(c, cursor);
      if cursor - FOLLOW <= moment <= cursor then Reading(moment, Moved)
      else if c.Dated? || moment > cursor then Reading(moment, Apart)
      else Reading(cursor, Inherited)
  }

  function After(row: Row, p: Progress): Progress {
    var q := Reached(p, row.number);
    var d := DatedBy(row, q.cursor);
    Progress(q.pending, if d.how == Moved then d.at else q.cursor)
  }

  /** Where the walk is once the lines from `i` down to the end of the file are done. */
  function At(rows: seq<Row>, marks: seq<Mark>, i: nat): Progress
    requires marks != [] && i <= |rows|
    decreases |rows| - i
  {
    if i == |rows| then Start(marks) else After(rows[i], At(rows, marks, i + 1))
  }

  /** The cursor line `i` is dated by. */
  function CursorFor(rows: seq<Row>, marks: seq<Mark>, i: nat): Moment
    requires marks != [] && i < |rows|
  {
    Reached(At(rows, marks, i + 1), rows[i].number).cursor
  }

  function DateOf(rows: seq<Row>, marks: seq<Mark>, i: nat): Reading
    requires marks != [] && i < |rows|
  {
    DatedBy(rows[i], CursorFor(rows, marks, i))
  }

  // ----- what a line shows

  ghost predicate Highest(m: Mark, marks: seq<Mark>) {
    forall x :: x in marks ==> x.count < m.count || (x.count == m.count && x.at <= m.at)
  }

  /** The first cursor is the time of the mark with the most lines. */
  lemma FirstCursor(rows: seq<Row>, marks: seq<Mark>)
    requires marks != []
    ensures exists m :: m in marks && m.at == At(rows, marks, |rows|).cursor && Highest(m, marks)
  {
    SortOrders(marks);
    var s := SortMarks(marks);
    var m := s[|s| - 1];
    forall x | x in marks
      ensures x.count < m.count || (x.count == m.count && x.at <= m.at)
    {
      var k :| 0 <= k < |s| && s[k] == x;
      assert k < |s| - 1 ==> Before(s[k], m);
    }
  }

  /**
   What a line shows, and the cursor it hands to the line above, by its clock's reading: a reading up to sixteen
   hours back moves the cursor, one ahead or with a date stands apart, and for all else the cursor is the guess.
   */
  lemma LineMeans(rows: seq<Row>, marks: seq<Mark>, i: nat)
    requires marks != [] && i < |rows|
    ensures var cursor, d, above := CursorFor(rows, marks, i), DateOf(rows, marks, i), At(rows, marks, i).cursor;
      match rows[i].clock(cursor)
      case None => d.at == cursor == above && d.how == Inherited
      case Some(c) =>
        var t := PlacedAt(c, cursor);
        if cursor - 16 * 3_600_000_000 <= t <= cursor then d.at == t == above && d.how == Moved
        else if c.Dated? || t > cursor then d.at == t && above == cursor && d.how == Apart
        else d.at == cursor == above && d.how == Inherited
  {
    hide Reached, PlacedAt;
  }

  /** A time without a date that is not a guess is the one the line shows. */
  lemma TimeOfDay(rows: seq<Row>, marks: seq<Mark>, i: nat)
    requires marks != [] && i < |rows| && DateOf(rows, marks, i).how != Inherited
    requires rows[i].clock(CursorFor(rows, marks, i)).Some?
    requires var c := rows[i].clock(CursorFor(rows, marks, i)).value; c.Daily? && ClockOk(c)
    ensures var c := rows[i].clock(CursorFor(rows, marks, i)).value;
      (DateOf(rows, marks, i).at + c.offset - c.time) % 86_400_000_000 == 0
  {
    DailyIsNear(rows[i].clock(CursorFor(rows, marks, i)).value, CursorFor(rows, marks, i));
    LineMeans(rows, marks, i);
  }

  // ----- what the walk promises

  lemma {:induction false} ReachedFalls(p: Progress, number: nat)
    ensures Reached(p, number).cursor <= p.cursor
    decreases |p.pending|
  {
    if p.pending != [] && number <= p.pending[|p.pending| - 1].count {
      ReachedFalls(Progress(p.pending[..|p.pending| - 1], Min(p.cursor, p.pending[|p.pending| - 1].at)), number);
    }
  }

  /** The cursor never rises on the way up the file. */
  lemma {:induction false} CursorNeverRises(rows: seq<Row>, marks: seq<Mark>, i: nat, j: nat)
    requires marks != [] && i <= j <= |rows|
    ensures At(rows, marks, i).cursor <= At(rows, marks, j).cursor
    decreases j - i
  {
    if i < j {
      CursorNeverRises(rows, marks, i + 1, j);
      ReachedFalls(At(rows, marks, i + 1), rows[i].number);
    }
  }

  /** A line that moved or took the cursor has the cursor's time. */
  lemma OnCursor(rows: seq<Row>, marks: seq<Mark>, i: nat)
    requires marks != [] && i < |rows| && DateOf(rows, marks, i).how != Apart
    ensures DateOf(rows, marks, i).at == At(rows, marks, i).cursor <= CursorFor(rows, marks, i)
  {
    hide Reached, PlacedAt;
  }

  /** Times that moved or took the cursor do not decrease down the file. */
  lemma TimesFollowFile(rows: seq<Row>, marks: seq<Mark>, i: nat, j: nat)
    requires marks != [] && i <= j < |rows|
    requires DateOf(rows, marks, i).how != Apart && DateOf(rows, marks, j).how != Apart
    ensures DateOf(rows, marks, i).at <= DateOf(rows, marks, j).at
  {
    hide At, DateOf;
    OnCursor(rows, marks, i);
    OnCursor(rows, marks, j);
    CursorNeverRises(rows, marks, i, j);
  }

  /** Every mark is still to come or has held the cursor down, and the marks to come are in order. */
  ghost predicate Covered(p: Progress, marks: seq<Mark>) {
    InOrder(p.pending) && forall m :: m in marks ==> m in p.pending || p.cursor <= m.at
  }

  lemma StartCovered(marks: seq<Mark>)
    requires marks != []
    ensures Covered(Start(marks), marks)
  {
    SortOrders(marks);
    hide SortMarks;
    var s := SortMarks(marks);
    assert s == s[..|s| - 1] + [s[|s| - 1]];
  }

  lemma {:induction false} ReachedCovered(p: Progress, number: nat, marks: seq<Mark>)
    requires Covered(p, marks)
    ensures Covered(Reached(p, number), marks)
    ensures forall m :: m in marks && number <= m.count ==> Reached(p, number).cursor <= m.at
    decreases |p.pending|
  {
    var n := |p.pending|;
    if n > 0 && number <= p.pending[n - 1].count {
      assert p.pending == p.pending[..n - 1] + [p.pending[n - 1]];
      ReachedCovered(Progress(p.pending[..n - 1], Min(p.cursor, p.pending[n - 1].at)), number, marks);
    } else {
      forall m | m in p.pending
        ensures m.count < number
      {
        var k :| 0 <= k < n && p.pending[k] == m;
        assert k < n - 1 ==> Before(p.pending[k], p.pending[n - 1]);
      }
    }
  }

  lemma {:induction false} AlwaysCovered(rows: seq<Row>, marks: seq<Mark>, i: nat)
    requires marks != [] && i <= |rows|
    ensures Covered(At(rows, marks, i), marks)
    decreases |rows| - i
  {
    hide Reached, PlacedAt;
    if i == |rows| {
      StartCovered(marks);
    } else {
      AlwaysCovered(rows, marks, i + 1);
      ReachedCovered(At(rows, marks, i + 1), rows[i].number, marks);
    }
  }

  /** The marks still to come are marks. */
  lemma {:induction false} ReachedAmong(p: Progress, number: nat, marks: seq<Mark>)
    requires forall m :: m in p.pending ==> m in marks
    ensures forall m :: m in Reached(p, number).pending ==> m in marks
    ensures Reached(p, number).cursor == p.cursor || exists m :: m in marks && number <= m.count && Reached(p, number).cursor == m.at
    decreases |p.pending|
  {
    var n := |p.pending|;
    if n > 0 && number <= p.pending[n - 1].count {
      assert p.pending[n - 1] in p.pending;
      ReachedAmong(Progress(p.pending[..n - 1], Min(p.cursor, p.pending[n - 1].at)), number, marks);
    }
  }

  lemma {:induction false} PendingAmong(rows: seq<Row>, marks: seq<Mark>, i: nat)
    requires marks != [] && i <= |rows|
    ensures forall m :: m in At(rows, marks, i).pending ==> m in marks
    decreases |rows| - i
  {
    hide DatedBy;
    if i == |rows| {
      SortOrders(marks);
    } else {
      PendingAmong(rows, marks, i + 1);
      ReachedAmong(At(rows, marks, i + 1), rows[i].number, marks);
    }
  }

  /** A line is dated from the cursor below it, lowered to the earliest mark that covers the line. */
  lemma CursorMeans(rows: seq<Row>, marks: seq<Mark>, i: nat)
    requires marks != [] && i < |rows|
    ensures var below, cursor := At(rows, marks, i + 1).cursor, CursorFor(rows, marks, i);
      && cursor <= below && (forall m :: m in marks && rows[i].number <= m.count ==> cursor <= m.at)
      && (cursor == below || exists m :: m in marks && rows[i].number <= m.count && cursor == m.at)
  {
    AlwaysCovered(rows, marks, i + 1);
    ReachedCovered(At(rows, marks, i + 1), rows[i].number, marks);
    ReachedFalls(At(rows, marks, i + 1), rows[i].number);
    PendingAmong(rows, marks, i + 1);
    ReachedAmong(At(rows, marks, i + 1), rows[i].number, marks);
  }

  /** A line that moved or took the cursor is no later than any mark that covers it. */
  lemma NeverPastMark(rows: seq<Row>, marks: seq<Mark>, i: nat, m: Mark)
    requires marks != [] && i < |rows| && DateOf(rows, marks, i).how != Apart && m in marks && rows[i].number <= m.count
    ensures DateOf(rows, marks, i).at <= m.at
  {
    hide At, DateOf, Covered, Reached;
    OnCursor(rows, marks, i);
    AlwaysCovered(rows, marks, i + 1);
    ReachedCovered(At(rows, marks, i + 1), rows[i].number, marks);
  }

  /** A line whose clock has no date is at most two hours past its cursor, and at most sixteen before it. */
  lemma DatelessStaysNear(rows: seq<Row>, marks: seq<Mark>, i: nat)
    requires marks != [] && i < |rows|
    requires var c := rows[i].clock(CursorFor(rows, marks, i)); c.None? || (c.value.Daily? && ClockOk(c.value))
    ensures CursorFor(rows, marks, i) - FOLLOW <= DateOf(rows, marks, i).at <= CursorFor(rows, marks, i) + SLACK
    ensures DateOf(rows, marks, i).how == Apart ==> DateOf(rows, marks, i).at > CursorFor(rows, marks, i)
  {
    var cursor := CursorFor(rows, marks, i);
    if rows[i].clock(cursor).Some? {
      DailyIsNear(rows[i].clock(cursor).value, cursor);
    }
  }

  // ----- the lines themselves

  class Line {
    const row: Row
    var at: Moment
    var approx: bool

    constructor (row: Row)
      ensures this.row == row
    {
      this.row, at, approx := row, 0, false;
    }
  }

  function Rows(lines: seq<Line>): (rows: seq<Row>)
    ensures |rows| == |lines|
    ensures forall i :: 0 <= i < |lines| ==> rows[i] == lines[i].row
  {
    if lines == [] then [] else Rows(lines[..|lines| - 1]) + [lines[|lines| - 1].row]
  }

  /** parse_inbox: dates every line in place, from the last to the first. */
  method ParseInbox(lines: seq<Line>, anchors: seq<Mark>)
    requires anchors != [] && forall i, j :: 0 <= i < j < |lines| ==> lines[i] != lines[j]
    modifies lines
    ensures forall i :: 0 <= i < |lines| ==>
      var d := DateOf(Rows(lines), anchors, i); lines[i].at == d.at && (lines[i].approx <==> d.how == Inherited)
  {
    hide At, DateOf, Reached, PlacedAt, SortMarks, Rows;
    var pending := SortMarks(anchors);
    var cursor := pending[|pending| - 1].at;
    pending := pending[..|pending| - 1];
    ghost var rows := Rows(lines);
    AtEnd(rows, anchors);
    var i := |lines|;
    while i > 0
      invariant 0 <= i <= |lines|
      invariant Progress(pending, cursor) == At(rows, anchors, i)
      invariant forall k :: i <= k < |lines| ==> Shows(lines[k].at, lines[k].approx, DateOf(rows, anchors, k))
    {
      i := i - 1;
      AtStep(rows, anchors, i);
      pending, cursor := Lower(pending, cursor, lines[i].row.number);
      var at, approx;
      at, cursor, approx := DateLine(lines[i].row, cursor);
      lines[i].at, lines[i].approx := at, approx;
    }
  }

  /** One line: its time, the cursor from here on, and whether the time is a guess. */
  method DateLine(row: Row, cursor: Moment) returns (at: Moment, next: Moment, approx: bool)
    ensures var d := DatedBy(row, cursor); Shows(at, approx, d) && next == if d.how == Moved then d.at else cursor
  {
    hide PlacedAt;
    var clock := row.clock(cursor);
    if clock.Some? {
      var moment := Placed(clock.value, cursor);
      if cursor - FOLLOW <= moment <= cursor {
        return moment, moment, false;
      } else if clock.value.Dated? || moment > cursor {
        return moment, cursor, false;
      }
    }
    return cursor, cursor, true;
  }

  /** A line's fields show this reading. */
  predicate Shows(at: Moment, approx: bool, r: Reading) {
    at == r.at && approx == (r.how == Inherited)
  }

  lemma AtEnd(rows: seq<Row>, marks: seq<Mark>)
    requires marks != []
    ensures At(rows, marks, |rows|) == Start(marks)
  {
  }

  lemma AtStep(rows: seq<Row>, marks: seq<Mark>, i: nat)
    requires marks != [] && i < |rows|
    ensures var q := Reached(At(rows, marks, i + 1), rows[i].number); var d := DatedBy(rows[i], q.cursor);
      DateOf(rows, marks, i) == d && At(rows, marks, i) == Progress(q.pending, if d.how == Moved then d.at else q.cursor)
  {
    hide Reached, DatedBy;
  }

  /** The inner loop: marks that cover the line are taken off the stack. */
  method Lower(stack: seq<Mark>, from: Moment, number: nat) returns (pending: seq<Mark>, cursor: Moment)
    ensures Progress(pending, cursor) == Reached(Progress(stack, from), number)
  {
    pending, cursor := stack, from;
    while pending != [] && number <= pending[|pending| - 1].count
      invariant Reached(Progress(pending, cursor), number) == Reached(Progress(stack, from), number)
      decreases |pending|
    {
      cursor := Min(cursor, pending[|pending| - 1].at);
      pending := pending[..|pending| - 1];
    }
  }

  // ----- the marks

  predicate Rising(marks: seq<Mark>) {
    forall i, j :: 0 <= i < j < |marks| ==> marks[i].count < marks[j].count
  }

  /** The marks of a file seen with `count` lines: a shorter file starts over, a longer one adds a mark. */
  function NextMarks(marks: seq<Mark>, count: nat, modified: Moment): seq<Mark> {
    var kept := if marks != [] && marks[|marks| - 1].count > count then [] else marks;
    if kept == [] || kept[|kept| - 1].count < count then kept + [Mark(count, modified)] else kept
  }

  /** Counts stay strictly increasing, the last is the file's length, and an earlier mark of that length stands. */
  lemma MarksKeepRising(marks: seq<Mark>, count: nat, modified: Moment)
    requires Rising(marks)
    ensures var next := NextMarks(marks, count, modified);
      && Rising(next) && next != [] && next[|next| - 1].count == count
      && (if marks != [] && marks[|marks| - 1].count > count then next == [Mark(count, modified)] else marks <= next)
      && (forall m :: m in next ==> m in marks || m == Mark(count, modified))
  {
  }

  const SECOND: int := 1_000_000

  /** The marks as the seen file keeps them: to the second. */
  function Rounded(marks: seq<Mark>): (r: seq<Mark>)
    ensures |r| == |marks|
    ensures forall i :: 0 <= i < |marks| ==> r[i].count == marks[i].count && r[i].at <= marks[i].at < r[i].at + SECOND
  {
    if marks == [] then []
    else
      var last := marks[|marks| - 1];
      Rounded(marks[..|marks| - 1]) + [Mark(last.count, last.at - last.at % SECOND)]
  }

  function RoundedAll(seen: map<string, seq<Mark>>): map<string, seq<Mark>> {
    map name | name in seen :: Rounded(seen[name])
  }

  function MarksOf(seen: map<string, seq<Mark>>, name: string): seq<Mark> {
    if name in seen then seen[name] else []
  }

  /** The marks of all files, read from the seen file once and written back whenever one is added. */
  class Seen {
    var file: Option<map<string, seq<Mark>>>
    var seen: Option<map<string, seq<Mark>>>

    constructor (stored: Option<map<string, seq<Mark>>>)
      ensures file == stored && seen == None && Kept()
    {
      file, seen := stored, None;
    }

    /** What is known: the marks in memory, else those in the file, if there is one. */
    function Known(): map<string, seq<Mark>>
      reads this
    {
      if seen.Some? then seen.value else if file.Some? then file.value else map[]
    }

    /** The file holds what is in memory, to the second, or just as it was read. */
    predicate Kept()
      reads this
    {
      seen.Some? ==> file == Some(RoundedAll(seen.value)) || file == Some(seen.value) || (file == None && seen.value == map[])
    }

    /** anchors: the file's marks, and one for how it is now. */
    method Anchors(name: string, count: nat, modified: Moment) returns (anchors: seq<Mark>)
      modifies this
      ensures var before := MarksOf(old(Known()), name); var next := NextMarks(before, count, modified);
        && seen == Some(old(Known())[name := next]) && anchors == next + [Mark(count, modified)]
        && file == (if next == before then old(file) else Some(RoundedAll(Known())))
      ensures Rising(MarksOf(old(Known()), name)) ==> Rising(MarksOf(Known(), name))
      ensures old(Kept()) ==> Kept()
    {
      hide NextMarks, Rising, Rounded, RoundedAll, MarksOf;
      if seen.None? {
        seen := Some(if file.Some? then file.value else map[]);
      }
      ghost var known := seen.value;
      var before := MarksOf(seen.value, name);
      var marks, added := AddMark(before, count, modified);
      if added {
        seen := Some(seen.value[name := marks]);
        file := Some(RoundedAll(seen.value));
      }
      Unadded(known, name, before);
      if Rising(before) { MarksKeepRising(before, count, modified); }
      Updated(known, name, marks);
      anchors := marks + [Mark(count, modified)];
    }
  }

  /** The marks after this visit, and whether one was added. */
  method AddMark(before: seq<Mark>, count: nat, modified: Moment) returns (marks: seq<Mark>, added: bool)
    ensures marks == NextMarks(before, count, modified) && (added <==> marks != before) && (before == [] ==> added)
  {
    marks, added := before, false;
    if marks != [] && marks[|marks| - 1].count > count {
      marks := [];
    }
    if marks == [] || marks[|marks| - 1].count < count {
      marks := marks + [Mark(count, modified)];
      added := true;
    }
  }

  lemma Unadded(known: map<string, seq<Mark>>, name: string, marks: seq<Mark>)
    requires marks == MarksOf(known, name)
    ensures marks != [] ==> known[name := marks] == known
  {
  }

  lemma Updated(known: map<string, seq<Mark>>, name: string, marks: seq<Mark>)
    ensures MarksOf(known[name := marks], name) == marks
  {
  }

  /** A visit to a file, or a new process that reads its marks back, rounded or as the last one had read them. */
  datatype Life = Visit(count: nat, at: Moment) | Restart(rounded: bool)

  /** The marks of one file after visits and restarts. */
  function MarksAfter(marks: seq<Mark>, lives: seq<Life>): seq<Mark>
    decreases |lives|
  {
    if lives == [] then marks else MarksAfter(LiveOn(marks, lives[0]), lives[1..])
  }

  function LiveOn(marks: seq<Mark>, life: Life): seq<Mark> {
    match life
    case Visit(count, at) => NextMarks(marks, count, at)
    case Restart(rounded) => if rounded then Rounded(marks) else marks
  }

  predicate EndsAt(marks: seq<Mark>, count: nat) {
    marks != [] && marks[|marks| - 1].count == count
  }

  /** The file's length on the last visit, or `count` if there was none. */
  function LastCount(count: nat, lives: seq<Life>): nat
    decreases |lives|
  {
    if lives == [] then count else LastCount(if lives[0].Visit? then lives[0].count else count, lives[1..])
  }

  predicate Visited(lives: seq<Life>) {
    exists i :: 0 <= i < |lives| && lives[i].Visit?
  }

  /** However a file grows and shrinks and processes come and go, its marks stay strictly increasing and end at its last length. */
  lemma {:induction false} MarksRiseForever(marks: seq<Mark>, count: nat, lives: seq<Life>)
    requires Rising(marks)
    ensures forall i, j :: 0 <= i < j < |MarksAfter(marks, lives)| ==> MarksAfter(marks, lives)[i].count < MarksAfter(marks, lives)[j].count
    ensures EndsAt(marks, count) || Visited(lives) ==> EndsAt(MarksAfter(marks, lives), LastCount(count, lives))
    decreases |lives|
  {
    hide NextMarks;
    if lives != [] {
      assert Visited(lives) && !lives[0].Visit? ==> Visited(lives[1..]) by { VisitLater(lives); }
      if lives[0].Visit? {
        MarksKeepRising(marks, lives[0].count, lives[0].at);
        MarksRiseForever(LiveOn(marks, lives[0]), lives[0].count, lives[1..]);
      } else {
        MarksRiseForever(LiveOn(marks, lives[0]), count, lives[1..]);
      }
    }
  }

  lemma VisitLater(lives: seq<Life>)
    requires lives != []
    ensures Visited(lives) && !lives[0].Visit? ==> Visited(lives[1..])
  {
    if Visited(lives) && !lives[0].Visit? {
      var i :| 0 <= i < |lives| && lives[i].Visit?;
      assert lives[1..][i - 1].Visit?;
    }
  }
}
