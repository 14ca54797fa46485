/** flowSvg: a row of columns, each with callouts stacked above and below it. */
module FlowLayout {
  import opened Options
  import opened Drawing

  const FX_PAD := 10.0
  const FX_GAP := 44.0
  const FX_COL_H := 40.0
  const FX_PADX := 14.0
  const FX_CALL_H2 := 44.0
  const FX_CALL_GAP := 6.0
  const FX_CONN := 26.0
  const FX_LEG_H := 22.0

  datatype Side = Above | Below
  datatype Column = Column(id: string, text: Width, sub: Option<Width>)
  datatype Callout = Callout(col: string, side: Option<Side>, title: Width, sub: Width)

  /** What is drawn in one place: column `i`, or the callout at position `p` of a stack of column `i`. */
  datatype Slot = ColumnBox(i: nat) | CalloutBox(i: nat, side: Side, p: nat)
  datatype Placed = Placed(slot: Slot, rect: Rect)
  datatype Picture = Picture(w: real, h: real, boxes: seq<Placed>)

  // ----- which callout goes where

  /** byId: the last of the first `n` columns with this id. */
  function ColumnOf(cols: seq<Column>, n: nat, id: string): (i: Option<nat>)
    requires n <= |cols|
    ensures i.Some? ==> i.value < n && cols[i.value].id == id && forall j :: i.value < j < n ==> cols[j].id != id
    ensures i.None? ==> forall j :: 0 <= j < n ==> cols[j].id != id
  {
    if n == 0 then None else if cols[n - 1].id == id then Some(n - 1) else ColumnOf(cols, n - 1, id)
  }

  /** Callout `k` belongs to column `i`. */
  predicate Belongs(cols: seq<Column>, calls: seq<Callout>, k: nat, i: nat)
    requires k < |calls|
  {
    ColumnOf(cols, |cols|, calls[k].col) == Some(i)
  }

  /** The side of callout `k` of column `i`: its own, or above until three are there. */
  function SideOf(cols: seq<Column>, calls: seq<Callout>, k: nat, i: nat): Side
    requires k < |calls|
    decreases k, 1
  {
    match calls[k].side
    case Some(side) => side
    case None => if |Stack(cols, calls, k, i, Above)| < 3 then Above else Below
  }

  /** The callouts among the first `n` that are stacked on this side of column `i`. */
  function Stack(cols: seq<Column>, calls: seq<Callout>, n: nat, i: nat, side: Side): (s: seq<nat>)
    requires n <= |calls|
    ensures forall p :: 0 <= p < |s| ==> s[p] < n
    decreases n, 0
  {
    if n == 0 then []
    else
      var before := Stack(cols, calls, n - 1, i, side);
      if Belongs(cols, calls, n - 1, i) && SideOf(cols, calls, n - 1, i) == side then before + [n - 1] else before
  }

  /** Every callout sits in the stack of its own column and side. */
  lemma {:induction false} InItsStack(cols: seq<Column>, calls: seq<Callout>, n: nat, i: nat, side: Side, k: nat)
    requires n <= |calls| && k < n
    ensures k in Stack(cols, calls, n, i, side) <==> Belongs(cols, calls, k, i) && SideOf(cols, calls, k, i) == side
  {
    hide Belongs, SideOf;
    if k < n - 1 {
      InItsStack(cols, calls, n - 1, i, side, k);
    } else {
      assert k !in Stack(cols, calls, n - 1, i, side);
    }
  }

  predicate Rising(s: seq<nat>) {
    forall p, q :: 0 <= p < q < |s| ==> s[p] < s[q]
  }

  /** A stack keeps the order of the callouts. */
  lemma {:induction false} StackRises(cols: seq<Column>, calls: seq<Callout>, n: nat, i: nat, side: Side)
    requires n <= |calls|
    ensures Rising(Stack(cols, calls, n, i, side))
  {
    hide Belongs, SideOf;
    if n > 0 {
      StackRises(cols, calls, n - 1, i, side);
    }
  }

  // ----- measures

  function CallW(c: Callout): (w: real)
    ensures w >= 2.0 * FX_PADX
  {
    Max(c.title, c.sub) + 2.0 * FX_PADX
  }

  function BoxW(c: Column): (w: real)
    ensures w >= 50.0
  {
    Max(Max(50.0, c.text + 2.0 * FX_PADX), if c.sub.Some? then c.sub.value + 2.0 * FX_PADX else 0.0)
  }

  /** stackH: the height of a stack of `n` callouts with the gaps between them. */
  function StackH(n: nat): real {
    if n == 0 then 0.0 else if n == 1 then FX_CALL_H2 else StackH(n - 1) + FX_CALL_H2 + FX_CALL_GAP
  }

  lemma {:induction false} StackHRises(m: nat, n: nat)
    requires m <= n
    ensures StackH(m) <= StackH(n) && (n > 0 ==> StackH(n) >= FX_CALL_H2)
    ensures n > m > 0 ==> StackH(m) + FX_CALL_GAP + FX_CALL_H2 <= StackH(n)
  {
    if m < n {
      StackHRises(m, n - 1);
    } else if n > 1 {
      StackHRises(n - 1, n - 1);
    }
  }

  /** Where everything goes: per column its left edge, width, box width and stacks; and the row's height. */
  datatype Plan = Plan(x: seq<real>, w: seq<real>, boxW: seq<real>, above: seq<seq<nat>>, below: seq<seq<nat>>, aboveH: real, belowH: real)

  predicate Fits(plan: Plan, cols: seq<Column>, calls: seq<Callout>) {
    && |plan.x| == |plan.w| == |plan.boxW| == |plan.above| == |plan.below| == |cols|
    && (forall i :: 0 <= i < |cols| ==> ColumnFits(plan, calls, i) && plan.boxW[i] == BoxW(cols[i]))
    && (forall i, j :: 0 <= i < j < |cols| ==> plan.x[i] + plan.w[i] + FX_GAP <= plan.x[j])
    && plan.aboveH >= 0.0 && plan.belowH >= 0.0
  }

  /** Column `i` starts inside the margin and holds its box and its callouts, 4 to spare on each side. */
  predicate ColumnFits(plan: Plan, calls: seq<Callout>, i: nat)
    requires i < |plan.x| && |plan.x| == |plan.w| == |plan.boxW| == |plan.above| == |plan.below|
  {
    && plan.x[i] >= FX_PAD && 50.0 <= plan.boxW[i] <= plan.w[i] - 8.0
    && Holds(plan.above[i], calls, plan.w[i] - 8.0) && Holds(plan.below[i], calls, plan.w[i] - 8.0)
    && StackH(|plan.above[i]|) <= plan.aboveH && StackH(|plan.below[i]|) <= plan.belowH
  }

  predicate Holds(stack: seq<nat>, calls: seq<Callout>, w: real) {
    forall p :: 0 <= p < |stack| ==> stack[p] < |calls| && CallW(calls[stack[p]]) <= w
  }

  function ColY(plan: Plan): real {
    FX_PAD + plan.aboveH + if plan.aboveH != 0.0 then FX_CONN else 0.0
  }

  /** The height of the picture, legend included. */
  function Height(plan: Plan): real {
    ColY(plan) + FX_COL_H + (if plan.belowH != 0.0 then FX_CONN + plan.belowH else 0.0) + FX_PAD + FX_LEG_H
  }

  function Middle(plan: Plan, i: nat): real
    requires i < |plan.x| == |plan.w|
  {
    plan.x[i] + plan.w[i] / 2.0
  }

  function StackOf(plan: Plan, i: nat, side: Side): seq<nat>
    requires i < |plan.above| == |plan.below|
  {
    if side == Above then plan.above[i] else plan.below[i]
  }

  predicate IsSlot(plan: Plan, slot: Slot)
    requires |plan.above| == |plan.below|
  {
    slot.i < |plan.above| && (slot.CalloutBox? ==> slot.p < |StackOf(plan, slot.i, slot.side)|)
  }

  /** The top of the callout at position `p` of a stack: the first is next to the column. */
  function Top(plan: Plan, side: Side, p: nat): real {
    if side == Above then ColY(plan) - FX_CONN - StackH(p + 1)
    else ColY(plan) + FX_COL_H + FX_CONN + StackH(p + 1) - FX_CALL_H2
  }

  function RectOf(plan: Plan, cols: seq<Column>, calls: seq<Callout>, slot: Slot): Rect
    requires Fits(plan, cols, calls) && IsSlot(plan, slot)
  {
    match slot
    case ColumnBox(i) => Rect(Middle(plan, i) - plan.boxW[i] / 2.0, ColY(plan), plan.boxW[i], FX_COL_H)
    case CalloutBox(i, side, p) =>
      assert ColumnFits(plan, calls, i);
      var w := CallW(calls[StackOf(plan, i, side)[p]]);
      Rect(Middle(plan, i) - w / 2.0, Top(plan, side, p), w, FX_CALL_H2)
  }

  // ----- exactly where

  /** Column `i` starts where the one before ends, and is as wide as its widest box; the tallest stacks count. */
  predicate Tight(plan: Plan, cols: seq<Column>, calls: seq<Callout>, end: real)
    requires SameLengths(plan, |cols|) && Fits(plan, cols, calls)
  {
    && SideBySide(plan, end)
    && (forall i :: 0 <= i < |cols| ==> WidthTaken(plan, calls, i))
    && HeightTaken(plan.aboveH, plan.above) && HeightTaken(plan.belowH, plan.below)
  }

  predicate SideBySide(plan: Plan, end: real)
    requires SameLengths(plan, |plan.x|)
  {
    && (forall i :: 0 <= i < |plan.x| ==> plan.x[i] == (if i == 0 then 10.0 else plan.x[i - 1] + plan.w[i - 1] + 44.0))
    && end == if plan.x == [] then 10.0 else plan.x[|plan.x| - 1] + plan.w[|plan.x| - 1] + 44.0
  }

  predicate HeightTaken(h: real, stacks: seq<seq<nat>>) {
    h == 0.0 || exists i :: 0 <= i < |stacks| && h == StackH(|stacks[i]|)
  }

  /** The width is the box's own or some callout's, and 8. */
  predicate WidthTaken(plan: Plan, calls: seq<Callout>, i: nat)
    requires SameLengths(plan, |plan.x|) && i < |plan.x| && ColumnFits(plan, calls, i)
  {
    || plan.w[i] == plan.boxW[i] + 8.0
    || (exists p :: 0 <= p < |plan.above[i]| && plan.w[i] == CallW(calls[plan.above[i][p]]) + 8.0)
    || (exists p :: 0 <= p < |plan.below[i]| && plan.w[i] == CallW(calls[plan.below[i][p]]) + 8.0)
  }

  /** A callout is as wide as its wider text and its padding; a column's box besides at least 50. */
  lemma SizesMean(c: Callout, col: Column)
    ensures CallW(c) == (if c.title >= c.sub then c.title else c.sub) + 28.0
    ensures BoxW(col) >= 50.0 && BoxW(col) >= col.text + 28.0 && (col.sub.Some? ==> BoxW(col) >= col.sub.value + 28.0)
    ensures BoxW(col) == 50.0 || BoxW(col) == col.text + 28.0 || (col.sub.Some? && BoxW(col) == col.sub.value + 28.0)
  {
  }

  lemma {:induction false} StackHMeans(n: nat)
    ensures StackH(n) == if n == 0 then 0.0 else 44.0 * n as real + 6.0 * (n - 1) as real
  {
    if n > 1 {
      StackHMeans(n - 1);
    }
  }

  /** The coordinates of every box, and the height of the picture. */
  lemma RectMeans(plan: Plan, cols: seq<Column>, calls: seq<Callout>, slot: Slot)
    requires Fits(plan, cols, calls) && IsSlot(plan, slot)
    ensures var r := RectOf(plan, cols, calls, slot); var colY := 10.0 + if plan.aboveH == 0.0 then 0.0 else plan.aboveH + 26.0;
      && r.x + r.w / 2.0 == plan.x[slot.i] + plan.w[slot.i] / 2.0
      && match slot
         case ColumnBox(i) => r.w == BoxW(cols[i]) && r.h == 40.0 && r.y == colY
         case CalloutBox(i, side, p) =>
           && StackOf(plan, i, side)[p] < |calls| && r.w == CallW(calls[StackOf(plan, i, side)[p]]) && r.h == 44.0
           && r.y == if side == Above then colY - 26.0 - 44.0 - 50.0 * p as real else colY + 40.0 + 26.0 + 50.0 * p as real
    ensures var colY := 10.0 + if plan.aboveH == 0.0 then 0.0 else plan.aboveH + 26.0;
      Height(plan) == colY + 40.0 + (if plan.belowH == 0.0 then 0.0 else 26.0 + plan.belowH) + 10.0 + 22.0
  {
    assert ColumnFits(plan, calls, slot.i);
    if slot.CalloutBox? {
      StackHMeans(slot.p + 1);
    }
  }

  /** A callout that names no side goes above exactly while fewer than three of its column are there. */
  lemma SideMeans(cols: seq<Column>, calls: seq<Callout>, k: nat, i: nat)
    requires k < |calls|
    ensures calls[k].side.Some? ==> SideOf(cols, calls, k, i) == calls[k].side.value
    ensures calls[k].side.None? ==>
      (SideOf(cols, calls, k, i) == Above <==> CountOn(cols, calls, k, i, Above) < 3)
  {
    StackCounts(cols, calls, k, i, Above);
  }

  /** How many of the first `n` callouts are on this side of column `i`. */
  function CountOn(cols: seq<Column>, calls: seq<Callout>, n: nat, i: nat, side: Side): nat
    requires n <= |calls|
  {
    if n == 0 then 0 else CountOn(cols, calls, n - 1, i, side) + if Belongs(cols, calls, n - 1, i) && SideOf(cols, calls, n - 1, i) == side then 1 else 0
  }

  lemma {:induction false} StackCounts(cols: seq<Column>, calls: seq<Callout>, n: nat, i: nat, side: Side)
    requires n <= |calls|
    ensures |Stack(cols, calls, n, i, side)| == CountOn(cols, calls, n, i, side)
  {
    hide Belongs, SideOf;
    if n > 0 {
      StackCounts(cols, calls, n - 1, i, side);
    }
  }

  // ----- no overlap, inside the view

  /** Each box keeps to its column, with 4 to spare on each side. */
  lemma WithinColumn(plan: Plan, cols: seq<Column>, calls: seq<Callout>, slot: Slot)
    requires Fits(plan, cols, calls) && IsSlot(plan, slot)
    ensures var r := RectOf(plan, cols, calls, slot);
      plan.x[slot.i] + 4.0 <= r.x && r.x + r.w <= plan.x[slot.i] + plan.w[slot.i] - 4.0 && r.w > 0.0
  {
    assert ColumnFits(plan, calls, slot.i);
  }

  lemma SlotsApart(plan: Plan, cols: seq<Column>, calls: seq<Callout>, a: Slot, b: Slot)
    requires Fits(plan, cols, calls) && IsSlot(plan, a) && IsSlot(plan, b) && a != b
    ensures Apart(RectOf(plan, cols, calls, a), RectOf(plan, cols, calls, b), FX_CALL_GAP)
  {
    WithinColumn(plan, cols, calls, a);
    WithinColumn(plan, cols, calls, b);
    if a.i != b.i {
      hide RectOf;
    } else if a.CalloutBox? && b.CalloutBox? {
      StackHRises(1, a.p + 1);
      StackHRises(1, b.p + 1);
      if a.side == b.side {
        if a.p < b.p { StackHRises(a.p + 1, b.p + 1); } else { StackHRises(b.p + 1, a.p + 1); }
      }
    } else if a.CalloutBox? {
      StackHRises(1, a.p + 1);
    } else if b.CalloutBox? {
      StackHRises(1, b.p + 1);
    }
  }

  lemma SlotInside(plan: Plan, cols: seq<Column>, calls: seq<Callout>, w: real, slot: Slot)
    requires Fits(plan, cols, calls) && IsSlot(plan, slot)
    requires forall i :: 0 <= i < |cols| ==> plan.x[i] + plan.w[i] + FX_PAD <= w
    ensures Inside(RectOf(plan, cols, calls, slot), Rect(0.0, 0.0, w, Height(plan) - FX_LEG_H), FX_PAD)
  {
    WithinColumn(plan, cols, calls, slot);
    assert ColumnFits(plan, calls, slot.i);
    if slot.CalloutBox? {
      var n := |StackOf(plan, slot.i, slot.side)|;
      StackHRises(slot.p + 1, n);
      StackHRises(1, slot.p + 1);
    }
  }

  // ----- the drawing

  predicate AllKnown(cols: seq<Column>, calls: seq<Callout>, n: nat)
    requires n <= |calls|
  {
    forall k :: 0 <= k < n ==> ColumnOf(cols, |cols|, calls[k].col).Some?
  }

  /** The stacks hold every callout, each in the one place its column, side and order give it. */
  predicate Stacked(cols: seq<Column>, calls: seq<Callout>, n: nat, above: seq<seq<nat>>, below: seq<seq<nat>>)
    requires n <= |calls|
  {
    && |above| == |below| == |cols|
    && (forall i :: 0 <= i < |cols| ==> above[i] == Stack(cols, calls, n, i, Above))
    && (forall i :: 0 <= i < |cols| ==> below[i] == Stack(cols, calls, n, i, Below))
  }

  /** The first pass of flowSvg; a callout whose column does not exist stops it. */
  method Assign(cols: seq<Column>, calls: seq<Callout>) returns (known: bool, above: seq<seq<nat>>, below: seq<seq<nat>>)
    ensures known <==> AllKnown(cols, calls, |calls|)
    ensures known ==> Stacked(cols, calls, |calls|, above, below)
  {
    above, below := seq(|cols|, _ => []), seq(|cols|, _ => []);
    for k := 0 to |calls|
      invariant AllKnown(cols, calls, k) && Stacked(cols, calls, k, above, below)
    {
      var at := ColumnOf(cols, |cols|, calls[k].col);
      if at.None? {
        return false, above, below;
      }
      var i := at.value;
      var side := if calls[k].side.Some? then calls[k].side.value else if |above[i]| < 3 then Above else Below;
      if side == Above {
        above := above[i := above[i] + [k]];
      } else {
        below := below[i := below[i] + [k]];
      }
    }
    known := true;
  }

  /** The widest callout of a stack, or `base`. */
  method WidestCall(base: real, stack: seq<nat>, calls: seq<Callout>) returns (w: real)
    requires forall p :: 0 <= p < |stack| ==> stack[p] < |calls|
    ensures w >= base && Holds(stack, calls, w)
    ensures w == base || exists p :: 0 <= p < |stack| && w == CallW(calls[stack[p]])
  {
    w := base;
    for p := 0 to |stack|
      invariant w >= base && Holds(stack[..p], calls, w)
      invariant w == base || exists q :: 0 <= q < p && w == CallW(calls[stack[q]])
    {
      w := Max(w, CallW(calls[stack[p]]));
      assert stack[..p + 1] == stack[..p] + [stack[p]];
    }
    assert stack[..|stack|] == stack;
  }

  /** The measuring pass: columns side by side, and the tallest stack on either side. */
  method Measure(cols: seq<Column>, calls: seq<Callout>, above: seq<seq<nat>>, below: seq<seq<nat>>) returns (plan: Plan, end: real)
    requires Stacked(cols, calls, |calls|, above, below)
    ensures plan.above == above && plan.below == below && Fits(plan, cols, calls)
    ensures forall i :: 0 <= i < |cols| ==> plan.x[i] + plan.w[i] + FX_GAP <= end
    ensures SameLengths(plan, |cols|) && Tight(plan, cols, calls, end)
  {
    hide Stack, StackH, BoxW, CallW, Fits, Holds, EndsBy, Stacked, Tight;
    plan := Plan([], [], [], [], [], 0.0, 0.0);
    end := FX_PAD;
    NothingFits(plan, calls);
    assert Tight(plan, [], calls, end) by { NothingTight(plan, calls); }
    StackedLengths(cols, calls, above, below);
    for i := 0 to |cols|
      invariant SameLengths(plan, i) && Fits(plan, cols[..i], calls) && EndsBy(plan, end)
      invariant plan.above == above[..i] && plan.below == below[..i]
      invariant Tight(plan, cols[..i], calls, end)
    {
      StackedAt(cols, calls, above, below, i);
      var boxW := BoxW(cols[i]);
      var wide := WidestCall(boxW, above[i], calls);
      var w := WidestCall(wide, below[i], calls);
      HoldsMore(above[i], calls, wide, w);
      w := w + 8.0;
      ghost var before := plan;
      plan := Plan(plan.x + [end], plan.w + [w], plan.boxW + [boxW], plan.above + [above[i]], plan.below + [below[i]],
                   Max(plan.aboveH, StackH(|above[i]|)), Max(plan.belowH, StackH(|below[i]|)));
      OneMoreFits(before, plan, cols, calls, i, end, w, boxW, above[i], below[i]);
      OneMoreTight(before, plan, cols, calls, i, end, w, boxW, above[i], below[i]);
      end := end + w + FX_GAP;
      assert above[..i + 1] == above[..i] + [above[i]] && below[..i + 1] == below[..i] + [below[i]];
    }
    assert above[..|cols|] == above && below[..|cols|] == below && cols[..|cols|] == cols;
    EndsHere(plan, end);
  }

  lemma HoldsMore(stack: seq<nat>, calls: seq<Callout>, v: real, w: real)
    requires Holds(stack, calls, v) && v <= w
    ensures Holds(stack, calls, w)
  {
    hide CallW;
  }

  /** All columns so far end, gap included, by `end`. */
  predicate EndsBy(plan: Plan, end: real)
    requires SameLengths(plan, |plan.x|)
  {
    end >= FX_PAD && forall j :: 0 <= j < |plan.x| ==> plan.x[j] + plan.w[j] + FX_GAP <= end
  }

  lemma EndsHere(plan: Plan, end: real)
    requires SameLengths(plan, |plan.x|) && EndsBy(plan, end)
    ensures forall i :: 0 <= i < |plan.x| ==> plan.x[i] + plan.w[i] + FX_GAP <= end
  {
  }

  lemma NothingFits(plan: Plan, calls: seq<Callout>)
    requires plan == Plan([], [], [], [], [], 0.0, 0.0)
    ensures SameLengths(plan, 0) && Fits(plan, [], calls) && EndsBy(plan, FX_PAD)
  {
  }

  lemma NothingTight(plan: Plan, calls: seq<Callout>)
    requires plan == Plan([], [], [], [], [], 0.0, 0.0)
    ensures Fits(plan, [], calls) && Tight(plan, [], calls, FX_PAD)
  {
  }

  lemma OneMoreTight(before: Plan, plan: Plan, cols: seq<Column>, calls: seq<Callout>, n: nat, end: real, w: real, boxW: real, above: seq<nat>, below: seq<nat>)
    requires n < |cols| && SameLengths(before, n) && Fits(before, cols[..n], calls) && Tight(before, cols[..n], calls, end)
    requires SameLengths(plan, n + 1) && Fits(plan, cols[..n + 1], calls)
    requires plan == Plan(before.x + [end], before.w + [w], before.boxW + [boxW], before.above + [above], before.below + [below],
                          Max(before.aboveH, StackH(|above|)), Max(before.belowH, StackH(|below|)))
    requires (forall p :: 0 <= p < |above| ==> above[p] < |calls|) && (forall p :: 0 <= p < |below| ==> below[p] < |calls|)
    requires w == boxW + 8.0 || (exists p :: 0 <= p < |above| && w == CallW(calls[above[p]]) + 8.0)
      || (exists p :: 0 <= p < |below| && w == CallW(calls[below[p]]) + 8.0)
    ensures Tight(plan, cols[..n + 1], calls, end + w + FX_GAP)
  {
    hide StackH, Holds, CallW, Fits, SideBySide;
    NextBeside(before, plan, n, end, w);
    WidthsTaken(before, plan, cols, calls, n, w, boxW, above, below);
    hide WidthTaken;
    HeightGrows(before.aboveH, before.above, above);
    HeightGrows(before.belowH, before.below, below);
    hide HeightTaken;
  }

  lemma NextBeside(before: Plan, plan: Plan, n: nat, end: real, w: real)
    requires SameLengths(before, n) && SameLengths(plan, n + 1) && SideBySide(before, end)
    requires plan.x == before.x + [end] && plan.w == before.w + [w]
    ensures SideBySide(plan, end + w + FX_GAP)
  {
  }

  lemma HeightGrows(h: real, stacks: seq<seq<nat>>, stack: seq<nat>)
    requires HeightTaken(h, stacks)
    ensures HeightTaken(Max(h, StackH(|stack|)), stacks + [stack])
  {
    hide StackH;
    var more := stacks + [stack];
    if Max(h, StackH(|stack|)) == StackH(|stack|) {
      assert more[|stacks|] == stack;
    } else if h != 0.0 {
      var i :| 0 <= i < |stacks| && h == StackH(|stacks[i]|);
      assert more[i] == stacks[i];
    }
  }

  lemma WidthsTaken(before: Plan, plan: Plan, cols: seq<Column>, calls: seq<Callout>, n: nat, w: real, boxW: real, above: seq<nat>, below: seq<nat>)
    requires n < |cols| && SameLengths(before, n) && SameLengths(plan, n + 1) && Fits(before, cols[..n], calls) && Fits(plan, cols[..n + 1], calls)
    requires forall i :: 0 <= i < n ==> WidthTaken(before, calls, i)
    requires plan.w == before.w + [w] && plan.boxW == before.boxW + [boxW] && plan.above == before.above + [above] && plan.below == before.below + [below]
    requires (forall p :: 0 <= p < |above| ==> above[p] < |calls|) && (forall p :: 0 <= p < |below| ==> below[p] < |calls|)
    requires w == boxW + 8.0 || (exists p :: 0 <= p < |above| && w == CallW(calls[above[p]]) + 8.0)
      || (exists p :: 0 <= p < |below| && w == CallW(calls[below[p]]) + 8.0)
    ensures forall i :: 0 <= i <= n ==> WidthTaken(plan, calls, i)
  {
    hide StackH, Holds, CallW;
    forall i | 0 <= i <= n
      ensures ColumnFits(plan, calls, i) && WidthTaken(plan, calls, i)
    {
      if i < n {
        assert ColumnFits(before, calls, i) && WidthTaken(before, calls, i);
        assert plan.above[i] == before.above[i] && plan.below[i] == before.below[i] && plan.w[i] == before.w[i] && plan.boxW[i] == before.boxW[i];
      }
    }
  }

  lemma StackedLengths(cols: seq<Column>, calls: seq<Callout>, above: seq<seq<nat>>, below: seq<seq<nat>>)
    requires Stacked(cols, calls, |calls|, above, below)
    ensures |above| == |below| == |cols|
  {
    hide Stack;
  }

  lemma StackedAt(cols: seq<Column>, calls: seq<Callout>, above: seq<seq<nat>>, below: seq<seq<nat>>, i: nat)
    requires Stacked(cols, calls, |calls|, above, below) && i < |cols|
    ensures |above| == |below| == |cols|
    ensures forall p :: 0 <= p < |above[i]| ==> above[i][p] < |calls|
    ensures forall p :: 0 <= p < |below[i]| ==> below[i][p] < |calls|
  {
    hide Stack;
    assert above[i] == Stack(cols, calls, |calls|, i, Above) && below[i] == Stack(cols, calls, |calls|, i, Below);
  }

  lemma OneMoreFits(before: Plan, plan: Plan, cols: seq<Column>, calls: seq<Callout>, n: nat, end: real, w: real, boxW: real, above: seq<nat>, below: seq<nat>)
    requires n < |cols| && SameLengths(before, n) && Fits(before, cols[..n], calls) && EndsBy(before, end)
    requires boxW == BoxW(cols[n]) && w >= boxW + 8.0 && Holds(above, calls, w - 8.0) && Holds(below, calls, w - 8.0)
    requires plan == Plan(before.x + [end], before.w + [w], before.boxW + [boxW], before.above + [above], before.below + [below],
                          Max(before.aboveH, StackH(|above|)), Max(before.belowH, StackH(|below|)))
    ensures SameLengths(plan, n + 1) && Fits(plan, cols[..n + 1], calls) && EndsBy(plan, end + w + FX_GAP)
  {
    hide StackH, Holds, CallW;
    StillFits(before, plan, calls, n);
    assert ColumnFits(plan, calls, n);
    hide ColumnFits;
    forall i | 0 <= i < n
      ensures plan.boxW[i] == BoxW(cols[i])
    {
      assert before.boxW[i] == BoxW(cols[..n][i]);
    }
  }

  predicate SameLengths(plan: Plan, n: nat) {
    |plan.x| == |plan.w| == |plan.boxW| == |plan.above| == |plan.below| == n
  }

  lemma StillFits(before: Plan, plan: Plan, calls: seq<Callout>, n: nat)
    requires SameLengths(before, n) && SameLengths(plan, n + 1) && forall i :: 0 <= i < n ==> ColumnFits(before, calls, i)
    requires plan.x[..n] == before.x && plan.w[..n] == before.w && plan.boxW[..n] == before.boxW
    requires plan.above[..n] == before.above && plan.below[..n] == before.below
    requires before.aboveH <= plan.aboveH && before.belowH <= plan.belowH
    ensures forall i :: 0 <= i < n ==> ColumnFits(plan, calls, i)
  {
    hide StackH, Holds;
    forall i | 0 <= i < n
      ensures ColumnFits(plan, calls, i)
    {
      assert ColumnFits(before, calls, i);
      assert plan.above[..n][i] == plan.above[i] && plan.below[..n][i] == plan.below[i];
      assert plan.x[..n][i] == plan.x[i] && plan.w[..n][i] == plan.w[i] && plan.boxW[..n][i] == plan.boxW[i];
    }
  }

  // ----- the boxes, in drawing order

  /** The first `n` boxes of a stack. */
  function StackBoxes(plan: Plan, cols: seq<Column>, calls: seq<Callout>, i: nat, side: Side, n: nat): (boxes: seq<Placed>)
    requires Fits(plan, cols, calls) && i < |cols| && n <= |StackOf(plan, i, side)|
    ensures |boxes| == n
    ensures forall p :: 0 <= p < n ==> boxes[p] == Placed(CalloutBox(i, side, p), RectOf(plan, cols, calls, CalloutBox(i, side, p)))
  {
    if n == 0 then []
    else StackBoxes(plan, cols, calls, i, side, n - 1) + [Placed(CalloutBox(i, side, n - 1), RectOf(plan, cols, calls, CalloutBox(i, side, n - 1)))]
  }

  function ColumnBoxes(plan: Plan, cols: seq<Column>, calls: seq<Callout>, i: nat): seq<Placed>
    requires Fits(plan, cols, calls) && i < |cols|
  {
    [Placed(ColumnBox(i), RectOf(plan, cols, calls, ColumnBox(i)))]
    + StackBoxes(plan, cols, calls, i, Above, |plan.above[i]|) + StackBoxes(plan, cols, calls, i, Below, |plan.below[i]|)
  }

  /** The boxes of the first `n` columns. */
  function Boxes(plan: Plan, cols: seq<Column>, calls: seq<Callout>, n: nat): seq<Placed>
    requires Fits(plan, cols, calls) && n <= |cols|
  {
    if n == 0 then [] else Boxes(plan, cols, calls, n - 1) + ColumnBoxes(plan, cols, calls, n - 1)
  }

  /** Exactly the slots that `wanted` holds are drawn, each once and in its place. */
  ghost predicate Drawn(plan: Plan, cols: seq<Column>, calls: seq<Callout>, wanted: iset<Slot>, boxes: seq<Placed>)
    requires Fits(plan, cols, calls)
  {
    && (forall b :: 0 <= b < |boxes| ==> PlacedWell(plan, cols, calls, boxes[b]) && boxes[b].slot in wanted)
    && (forall a, b :: 0 <= a < b < |boxes| ==> boxes[a].slot != boxes[b].slot)
    && (forall slot :: slot in wanted ==> SlotDrawn(boxes, slot))
  }

  predicate PlacedWell(plan: Plan, cols: seq<Column>, calls: seq<Callout>, box: Placed)
    requires Fits(plan, cols, calls)
  {
    IsSlot(plan, box.slot) && box.rect == RectOf(plan, cols, calls, box.slot)
  }

  predicate SlotDrawn(boxes: seq<Placed>, slot: Slot) {
    exists b :: 0 <= b < |boxes| && boxes[b].slot == slot
  }

  lemma DrawnBoth(plan: Plan, cols: seq<Column>, calls: seq<Callout>, a: iset<Slot>, x: seq<Placed>, b: iset<Slot>, y: seq<Placed>)
    requires Fits(plan, cols, calls) && Drawn(plan, cols, calls, a, x) && Drawn(plan, cols, calls, b, y) && a !! b
    ensures Drawn(plan, cols, calls, a + b, x + y)
  {
    hide PlacedWell, Fits;
    var boxes := x + y;
    forall slot | slot in a + b
      ensures SlotDrawn(boxes, slot)
    {
      if slot in a {
        var k :| 0 <= k < |x| && x[k].slot == slot;
        assert boxes[k].slot == slot;
      } else {
        var k :| 0 <= k < |y| && y[k].slot == slot;
        assert boxes[|x| + k].slot == slot;
      }
    }
  }

  ghost function SlotsOf(plan: Plan, n: nat): iset<Slot>
    requires |plan.above| == |plan.below|
  {
    iset slot | IsSlot(plan, slot) && slot.i < n
  }

  ghost function SlotsOn(plan: Plan, i: nat, side: Side): iset<Slot>
    requires |plan.above| == |plan.below|
  {
    iset slot | IsSlot(plan, slot) && slot.CalloutBox? && slot.i == i && slot.side == side
  }

  lemma Lengths(plan: Plan, cols: seq<Column>, calls: seq<Callout>)
    requires Fits(plan, cols, calls)
    ensures SameLengths(plan, |cols|)
  {
  }

  lemma StackDrawn(plan: Plan, cols: seq<Column>, calls: seq<Callout>, i: nat, side: Side)
    requires Fits(plan, cols, calls) && i < |cols|
    ensures Drawn(plan, cols, calls, SlotsOn(plan, i, side), StackBoxes(plan, cols, calls, i, side, |StackOf(plan, i, side)|))
  {
    hide Fits, RectOf, StackOf;
    Lengths(plan, cols, calls);
    var boxes := StackBoxes(plan, cols, calls, i, side, |StackOf(plan, i, side)|);
    forall slot | slot in SlotsOn(plan, i, side)
      ensures SlotDrawn(boxes, slot)
    {
      assert boxes[slot.p].slot == slot;
    }
  }

  lemma ColumnDrawn(plan: Plan, cols: seq<Column>, calls: seq<Callout>, i: nat)
    requires Fits(plan, cols, calls) && i < |cols|
    ensures Drawn(plan, cols, calls, SlotsOf(plan, i + 1) - SlotsOf(plan, i), ColumnBoxes(plan, cols, calls, i))
  {
    var box := Placed(ColumnBox(i), RectOf(plan, cols, calls, ColumnBox(i)));
    var above, below := SlotsOn(plan, i, Above), SlotsOn(plan, i, Below);
    StackDrawn(plan, cols, calls, i, Above);
    StackDrawn(plan, cols, calls, i, Below);
    assert Drawn(plan, cols, calls, iset{ColumnBox(i)}, [box]) by {
      assert [box][0].slot == ColumnBox(i);
    }
    ColumnSlots(plan, i);
    hide Fits, Drawn, StackBoxes, SlotsOn, SlotsOf, RectOf;
    DrawnBoth(plan, cols, calls, iset{ColumnBox(i)}, [box], above, StackBoxes(plan, cols, calls, i, Above, |plan.above[i]|));
    DrawnBoth(plan, cols, calls, iset{ColumnBox(i)} + above, [box] + StackBoxes(plan, cols, calls, i, Above, |plan.above[i]|),
              below, StackBoxes(plan, cols, calls, i, Below, |plan.below[i]|));
  }

  lemma ColumnSlots(plan: Plan, i: nat)
    requires |plan.above| == |plan.below| && i < |plan.above|
    ensures iset{ColumnBox(i)} !! SlotsOn(plan, i, Above)
    ensures iset{ColumnBox(i)} + SlotsOn(plan, i, Above) !! SlotsOn(plan, i, Below)
    ensures SlotsOf(plan, i + 1) - SlotsOf(plan, i) == iset{ColumnBox(i)} + SlotsOn(plan, i, Above) + SlotsOn(plan, i, Below)
  {
  }

  lemma {:induction false} AllDrawn(plan: Plan, cols: seq<Column>, calls: seq<Callout>, n: nat)
    requires Fits(plan, cols, calls) && n <= |cols|
    ensures Drawn(plan, cols, calls, SlotsOf(plan, n), Boxes(plan, cols, calls, n))
  {
    hide Fits, ColumnBoxes;
    Lengths(plan, cols, calls);
    if n > 0 {
      AllDrawn(plan, cols, calls, n - 1);
      ColumnDrawn(plan, cols, calls, n - 1);
      hide Drawn, IsSlot;
      assert SlotsOf(plan, n) == SlotsOf(plan, n - 1) + (SlotsOf(plan, n) - SlotsOf(plan, n - 1));
      DrawnBoth(plan, cols, calls, SlotsOf(plan, n - 1), Boxes(plan, cols, calls, n - 1),
                SlotsOf(plan, n) - SlotsOf(plan, n - 1), ColumnBoxes(plan, cols, calls, n - 1));
    }
  }

  /** The boxes of one stack, from the column outwards. */
  method DrawStack(plan: Plan, cols: seq<Column>, calls: seq<Callout>, i: nat, side: Side) returns (boxes: seq<Placed>)
    requires Fits(plan, cols, calls) && i < |cols|
    ensures boxes == StackBoxes(plan, cols, calls, i, side, |StackOf(plan, i, side)|)
  {
    hide Fits;
    Lengths(plan, cols, calls);
    boxes := [];
    var stack := StackOf(plan, i, side);
    var y := if side == Above then ColY(plan) - FX_CONN else ColY(plan) + FX_COL_H + FX_CONN;
    for p := 0 to |stack|
      invariant boxes == StackBoxes(plan, cols, calls, i, side, p)
      invariant side == Above ==> y == ColY(plan) - FX_CONN - StackH(p) - (if p > 0 then FX_CALL_GAP else 0.0)
      invariant side == Below ==> y == ColY(plan) + FX_COL_H + FX_CONN + StackH(p) + (if p > 0 then FX_CALL_GAP else 0.0)
    {
      InStack(plan, cols, calls, i, side, p);
      var w := CallW(calls[stack[p]]);
      if side == Above { y := y - FX_CALL_H2; }
      boxes := boxes + [Placed(CalloutBox(i, side, p), Rect(Middle(plan, i) - w / 2.0, y, w, FX_CALL_H2))];
      y := if side == Above then y - FX_CALL_GAP else y + (FX_CALL_H2 + FX_CALL_GAP);
    }
  }

  lemma InStack(plan: Plan, cols: seq<Column>, calls: seq<Callout>, i: nat, side: Side, p: nat)
    requires Fits(plan, cols, calls) && i < |cols| && p < |StackOf(plan, i, side)|
    ensures |plan.x| == |plan.w| == |cols| && StackOf(plan, i, side)[p] < |calls|
  {
    assert ColumnFits(plan, calls, i);
  }

  /** The drawing pass. */
  method Draw(plan: Plan, cols: seq<Column>, calls: seq<Callout>) returns (boxes: seq<Placed>)
    requires Fits(plan, cols, calls)
    ensures boxes == Boxes(plan, cols, calls, |cols|)
  {
    hide StackBoxes, Fits, Boxes, RectOf;
    Lengths(plan, cols, calls);
    boxes := [];
    NoBoxes(plan, cols, calls);
    for i := 0 to |cols|
      invariant boxes == Boxes(plan, cols, calls, i)
    {
      var box := Placed(ColumnBox(i), Rect(Middle(plan, i) - plan.boxW[i] / 2.0, ColY(plan), plan.boxW[i], FX_COL_H));
      var above := DrawStack(plan, cols, calls, i, Above);
      var below := DrawStack(plan, cols, calls, i, Below);
      BoxesStep(plan, cols, calls, i, box, above, below);
      boxes := boxes + [box] + above + below;
    }
  }

  lemma NoBoxes(plan: Plan, cols: seq<Column>, calls: seq<Callout>)
    requires Fits(plan, cols, calls)
    ensures Boxes(plan, cols, calls, 0) == []
  {
  }

  lemma BoxesStep(plan: Plan, cols: seq<Column>, calls: seq<Callout>, i: nat, box: Placed, above: seq<Placed>, below: seq<Placed>)
    requires Fits(plan, cols, calls) && i < |cols|
    requires box == Placed(ColumnBox(i), Rect(Middle(plan, i) - plan.boxW[i] / 2.0, ColY(plan), plan.boxW[i], FX_COL_H))
    requires above == StackBoxes(plan, cols, calls, i, Above, |plan.above[i]|)
    requires below == StackBoxes(plan, cols, calls, i, Below, |plan.below[i]|)
    ensures Boxes(plan, cols, calls, i + 1) == Boxes(plan, cols, calls, i) + [box] + above + below
  {
    hide Fits, StackBoxes;
    assert ColumnBoxes(plan, cols, calls, i) == [box] + above + below;
  }

  // ----- what flowSvg promises

  /** The callout a box shows is the one its slot names, at its own size; a column's box has its own width. */
  predicate Shows(cols: seq<Column>, calls: seq<Callout>, box: Placed) {
    box.slot.i < |cols| && match box.slot
    case ColumnBox(i) => box.rect.w == BoxW(cols[i]) && box.rect.h == FX_COL_H
    case CalloutBox(i, side, p) =>
      var stack := Stack(cols, calls, |calls|, i, side);
      p < |stack| && box.rect.w == CallW(calls[stack[p]]) && box.rect.h == FX_CALL_H2
  }

  predicate NoOverlap(boxes: seq<Placed>, gap: real) {
    forall a, b :: 0 <= a < b < |boxes| ==> Apart(boxes[a].rect, boxes[b].rect, gap)
  }

  predicate AllInside(boxes: seq<Placed>, frame: Rect, pad: real) {
    forall b :: 0 <= b < |boxes| ==> Inside(boxes[b].rect, frame, pad)
  }

  /** Every column and every callout has a box. */
  predicate Complete(cols: seq<Column>, calls: seq<Callout>, boxes: seq<Placed>) {
    && (forall b :: 0 <= b < |boxes| ==> Shows(cols, calls, boxes[b]))
    && (forall a, b :: 0 <= a < b < |boxes| ==> boxes[a].slot != boxes[b].slot)
    && (forall i :: 0 <= i < |cols| ==> SlotDrawn(boxes, ColumnBox(i)))
    && (forall k :: 0 <= k < |calls| ==> CalloutDrawn(cols, calls, boxes, k))
  }

  predicate CalloutDrawn(cols: seq<Column>, calls: seq<Callout>, boxes: seq<Placed>, k: nat)
    requires k < |calls|
  {
    exists b :: 0 <= b < |boxes| && Names(cols, calls, boxes[b].slot, k)
  }

  /** This slot is where callout `k` belongs. */
  predicate Names(cols: seq<Column>, calls: seq<Callout>, slot: Slot, k: nat)
    requires k < |calls|
  {
    && slot.CalloutBox? && Belongs(cols, calls, k, slot.i) && slot.side == SideOf(cols, calls, k, slot.i)
    && slot.p < |Stack(cols, calls, |calls|, slot.i, slot.side)| && Stack(cols, calls, |calls|, slot.i, slot.side)[slot.p] == k
  }

  /**
   flowSvg: nothing is drawn if a callout names no column; otherwise every column and callout is drawn
   once, no two boxes come closer than the callout gap, and all lie inside the view, margins kept.
   */
  method FlowSvg(cols: seq<Column>, calls: seq<Callout>, legend: (Width, Width)) returns (picture: Option<Picture>, ghost plan: Plan, ghost end: real)
    ensures picture.Some? <==> AllKnown(cols, calls, |calls|)
    ensures picture.Some? ==> var boxes := picture.value.boxes;
      && Complete(cols, calls, boxes) && NoOverlap(boxes, FX_CALL_GAP)
      && AllInside(boxes, Rect(0.0, 0.0, picture.value.w, picture.value.h - FX_LEG_H), FX_PAD)
      && picture.value.w >= legend.0 + legend.1 + 3.0 * FX_PAD
    ensures picture.Some? ==>
      && Stacked(cols, calls, |calls|, plan.above, plan.below) && Fits(plan, cols, calls) && Tight(plan, cols, calls, end)
      && (forall b :: 0 <= b < |picture.value.boxes| ==> PlacedWell(plan, cols, calls, picture.value.boxes[b]))
      && picture.value.w == Max(end - 44.0 + 10.0, legend.0 + legend.1 + 30.0) && picture.value.h == Height(plan)
  {
    plan, end := Plan([], [], [], [], [], 0.0, 0.0), 0.0;
    hide Fits, Stacked, Boxes, Complete, RectOf, Height;
    var known, above, below := Assign(cols, calls);
    if !known {
      return None, plan, end;
    }
    var made, right := Measure(cols, calls, above, below);
    var w := Max(right - FX_GAP + FX_PAD, legend.0 + legend.1 + 3.0 * FX_PAD);
    var boxes := Draw(made, cols, calls);
    PlanIsGood(made, cols, calls, w);
    BoxesWell(made, cols, calls);
    plan, end := made, right;
    picture := Some(Picture(w, Height(made), boxes));
  }

  lemma BoxesWell(plan: Plan, cols: seq<Column>, calls: seq<Callout>)
    requires Fits(plan, cols, calls)
    ensures forall b :: 0 <= b < |Boxes(plan, cols, calls, |cols|)| ==> PlacedWell(plan, cols, calls, Boxes(plan, cols, calls, |cols|)[b])
  {
    hide Fits, PlacedWell, Boxes;
    AllDrawn(plan, cols, calls, |cols|);
  }

  lemma PlanIsGood(plan: Plan, cols: seq<Column>, calls: seq<Callout>, w: real)
    requires Fits(plan, cols, calls) && Stacked(cols, calls, |calls|, plan.above, plan.below) && AllKnown(cols, calls, |calls|)
    requires forall i :: 0 <= i < |cols| ==> plan.x[i] + plan.w[i] + FX_PAD <= w
    ensures var boxes := Boxes(plan, cols, calls, |cols|);
      && Complete(cols, calls, boxes) && NoOverlap(boxes, FX_CALL_GAP)
      && AllInside(boxes, Rect(0.0, 0.0, w, Height(plan) - FX_LEG_H), FX_PAD)
  {
    var boxes := Boxes(plan, cols, calls, |cols|);
    AllDrawn(plan, cols, calls, |cols|);
    hide Fits, RectOf, Height, Boxes, Apart, Inside, Stacked, Shows, AllKnown, CalloutDrawn, Stack;
    forall b | 0 <= b < |boxes|
      ensures Inside(boxes[b].rect, Rect(0.0, 0.0, w, Height(plan) - FX_LEG_H), FX_PAD)
      ensures Shows(cols, calls, boxes[b])
    {
      SlotInside(plan, cols, calls, w, boxes[b].slot);
      SlotShows(plan, cols, calls, boxes[b]);
    }
    forall a, b | 0 <= a < b < |boxes|
      ensures Apart(boxes[a].rect, boxes[b].rect, FX_CALL_GAP)
    {
      SlotsApart(plan, cols, calls, boxes[a].slot, boxes[b].slot);
    }
    forall i | 0 <= i < |cols|
      ensures SlotDrawn(boxes, ColumnBox(i))
    {
      ColumnIsSlot(plan, cols, calls, i);
    }
    forall k | 0 <= k < |calls|
      ensures CalloutDrawn(cols, calls, boxes, k)
    {
      CallIsDrawn(plan, cols, calls, boxes, k);
    }
  }

  lemma ColumnIsSlot(plan: Plan, cols: seq<Column>, calls: seq<Callout>, i: nat)
    requires Fits(plan, cols, calls) && i < |cols|
    ensures ColumnBox(i) in SlotsOf(plan, |cols|)
  {
  }

  lemma SlotShows(plan: Plan, cols: seq<Column>, calls: seq<Callout>, box: Placed)
    requires Fits(plan, cols, calls) && Stacked(cols, calls, |calls|, plan.above, plan.below) && PlacedWell(plan, cols, calls, box)
    ensures Shows(cols, calls, box)
  {
    hide Stack, BoxW, CallW, ColumnFits;
  }

  lemma CallIsDrawn(plan: Plan, cols: seq<Column>, calls: seq<Callout>, boxes: seq<Placed>, k: nat)
    requires Fits(plan, cols, calls) && Stacked(cols, calls, |calls|, plan.above, plan.below) && AllKnown(cols, calls, |calls|)
    requires k < |calls| && Drawn(plan, cols, calls, SlotsOf(plan, |cols|), boxes)
    ensures CalloutDrawn(cols, calls, boxes, k)
  {
    hide Stack, SideOf, PlacedWell, ColumnFits;
    var i := ColumnOf(cols, |cols|, calls[k].col).value;
    var side := SideOf(cols, calls, k, i);
    InItsStack(cols, calls, |calls|, i, side, k);
    var p :| 0 <= p < |Stack(cols, calls, |calls|, i, side)| && Stack(cols, calls, |calls|, i, side)[p] == k;
    assert CalloutBox(i, side, p) in SlotsOf(plan, |cols|);
    assert SlotDrawn(boxes, CalloutBox(i, side, p));
  }

  /** A callout has one place only. */
  lemma OnePlace(cols: seq<Column>, calls: seq<Callout>, a: Slot, b: Slot, k: nat)
    requires k < |calls| && Names(cols, calls, a, k) && Names(cols, calls, b, k)
    ensures a == b
  {
    StackRises(cols, calls, |calls|, a.i, a.side);
  }
}
