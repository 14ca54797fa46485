/** lanesSvg: two framed lanes of boxes, side by side or one above the other. */
module LanesLayout {
  import opened Options
  import opened Drawing
  import opened FlowLayout

  const LN_EYE := 24.0
  const LN_GAP := 32.0
  const LN_FPAD := 8.0
  const LN_BOX_H := 30.0
  const LN_BOX_H2 := 40.0
  const LN_BOX_GAP := 8.0
  const LN_MINW := 120.0
  const LN_BRIDGE_MIN := 64.0
  const LN_ONE_COL := 4

  datatype Box = Box(title: Width, sub: Option<Width>)
  type Lane = seq<Box>

  function TextW(b: Box): (w: real)
    ensures w >= b.title && (b.sub.Some? ==> w >= b.sub.value)
  {
    Max(b.title, if b.sub.Some? then b.sub.value else 0.0)
  }

  function BoxH(b: Box): real {
    if b.sub.Some? then LN_BOX_H2 else LN_BOX_H
  }

  // ----- the grid: boxes fill one column, or two row by row

  predicate Grid(cols: nat) {
    cols == 1 || cols == 2
  }

  function ColsOf(lane: Lane): (cols: nat)
    ensures Grid(cols)
  {
    if |lane| > LN_ONE_COL then 2 else 1
  }

  function RowOf(cols: nat, j: nat): nat
    requires Grid(cols)
  {
    if cols == 1 then j else j / 2
  }

  function ColumnAt(cols: nat, j: nat): nat
    requires Grid(cols)
  {
    if cols == 1 then 0 else j % 2
  }

  /** Which box stands in row `r`, column `c`. */
  function At(cols: nat, r: nat, c: nat): nat
    requires Grid(cols)
  {
    if cols == 1 then r else 2 * r + c
  }

  /** The rows hold the first `n` boxes in order. */
  predicate RowsHold(lane: Lane, cols: nat, n: nat, rows: seq<seq<Box>>)
    requires Grid(cols)
  {
    && n <= |lane| && |rows| == RowOf(cols, n + cols - 1)
    && forall r :: 0 <= r < |rows| ==> RowHolds(lane, cols, n, r, rows[r])
  }

  predicate RowHolds(lane: Lane, cols: nat, n: nat, r: nat, row: seq<Box>)
    requires Grid(cols) && n <= |lane|
  {
    && 0 < |row| <= cols && At(cols, r, |row| - 1) < n && (At(cols, r, |row| - 1) == n - 1 || |row| == cols)
    && forall c :: 0 <= c < |row| ==> row[c] == lane[At(cols, r, c)]
  }

  method FillRows(lane: Lane, cols: nat) returns (rows: seq<seq<Box>>)
    requires Grid(cols)
    ensures RowsHold(lane, cols, |lane|, rows)
  {
    rows := [];
    for j := 0 to |lane|
      invariant RowsHold(lane, cols, j, rows)
    {
      var r := j / cols;
      assert r == RowOf(cols, j);
      if r == |rows| {
        rows := rows + [[lane[j]]];
      } else {
        assert RowHolds(lane, cols, j, r, rows[r]);
        rows := rows[r := rows[r] + [lane[j]]];
      }
    }
  }

  /** A row is as tall as its tallest box. */
  method RowHeight(row: seq<Box>) returns (h: real)
    requires row != []
    ensures LN_BOX_H <= h <= LN_BOX_H2
    ensures (forall c :: 0 <= c < |row| ==> BoxH(row[c]) <= h) && HeightOf(row, h)
  {
    h := BoxH(row[0]);
    for c := 1 to |row|
      invariant LN_BOX_H <= h <= LN_BOX_H2
      invariant (forall d :: 0 <= d < c ==> BoxH(row[d]) <= h) && exists d :: 0 <= d < c && h == BoxH(row[d])
    {
      h := Max(h, BoxH(row[c]));
    }
  }

  /** How far below the first row row `r` starts. */
  function RowTop(rowH: seq<real>, r: nat): real
    requires r <= |rowH|
  {
    if r == 0 then 0.0 else RowTop(rowH, r - 1) + rowH[r - 1] + LN_BOX_GAP
  }

  /** stackH: all rows, with the gaps between them. */
  function StackHeight(rowH: seq<real>): real {
    if rowH == [] then 0.0 else RowTop(rowH, |rowH|) - LN_BOX_GAP
  }

  predicate Tall(rowH: seq<real>) {
    forall r :: 0 <= r < |rowH| ==> rowH[r] >= LN_BOX_H
  }

  lemma {:induction false} RowTopRises(rowH: seq<real>, q: nat, r: nat)
    requires q <= r <= |rowH| && Tall(rowH)
    ensures RowTop(rowH, q) <= RowTop(rowH, r)
    ensures q < r ==> RowTop(rowH, q) + rowH[q] + LN_BOX_GAP <= RowTop(rowH, r)
  {
    if q < r {
      RowTopRises(rowH, q, r - 1);
    }
  }

  lemma RowTopExtends(rowH: seq<real>, h: real, r: nat)
    requires r <= |rowH|
    ensures RowTop(rowH + [h], r) == RowTop(rowH, r)
  {
    if r > 0 {
      RowTopExtends(rowH, h, r - 1);
    }
  }

  // ----- one lane

  /** cols, rows, row heights, the widest text with its padding, and the height of all rows. */
  datatype LanePlan = LanePlan(cols: nat, rows: seq<seq<Box>>, rowH: seq<real>, boxW: real, stackH: real)

  predicate Measured(lane: Lane, plan: LanePlan) {
    && plan.cols == ColsOf(lane) && RowsHold(lane, plan.cols, |lane|, plan.rows) && |plan.rowH| == |plan.rows|
    && Tall(plan.rowH) && (forall r, c :: 0 <= r < |plan.rows| && 0 <= c < |plan.rows[r]| ==> BoxH(plan.rows[r][c]) <= plan.rowH[r])
    && plan.stackH == StackHeight(plan.rowH)
    && plan.boxW >= LN_MINW + 2.0 * FX_PADX && (forall j :: 0 <= j < |lane| ==> TextW(lane[j]) + 2.0 * FX_PADX <= plan.boxW)
    && RowHeightsTaken(plan) && WidthTaken(lane, plan.boxW)
  }

  /** Each row is as tall as one of its boxes. */
  predicate RowHeightsTaken(plan: LanePlan)
    requires |plan.rowH| == |plan.rows|
  {
    forall r :: 0 <= r < |plan.rows| ==> HeightOf(plan.rows[r], plan.rowH[r])
  }

  predicate HeightOf(row: seq<Box>, h: real) {
    exists c :: 0 <= c < |row| && h == BoxH(row[c])
  }

  /** The box width is the least allowed or that of some text, with the padding. */
  predicate WidthTaken(lane: Lane, w: real) {
    w == 120.0 + 28.0 || exists j :: 0 <= j < |lane| && w == TextW(lane[j]) + 28.0
  }

  method MeasureLane(lane: Lane) returns (plan: LanePlan)
    ensures Measured(lane, plan)
  {
    hide RowHolds, BoxH, TextW, HeightOf;
    var cols := ColsOf(lane);
    var rows := FillRows(lane, cols);
    var rowH: seq<real>, stackH := [], 0.0;
    for r := 0 to |rows|
      invariant |rowH| == r && Tall(rowH) && stackH == StackHeight(rowH)
      invariant forall q, c :: 0 <= q < r && 0 <= c < |rows[q]| ==> BoxH(rows[q][c]) <= rowH[q]
      invariant forall q :: 0 <= q < r ==> HeightOf(rows[q], rowH[q])
    {
      assert rows[r] != [] by { RowNotEmpty(lane, cols, rows, r); }
      var h := RowHeight(rows[r]);
      RowTopExtends(rowH, h, r);
      stackH := stackH + h + if r > 0 then LN_BOX_GAP else 0.0;
      rowH := rowH + [h];
    }
    var w := LN_MINW;
    for j := 0 to |lane|
      invariant w >= LN_MINW && forall k :: 0 <= k < j ==> TextW(lane[k]) <= w
      invariant w == 120.0 || exists k :: 0 <= k < j && w == TextW(lane[k])
    {
      w := Max(w, TextW(lane[j]));
    }
    WidthIs(lane, w);
    plan := LanePlan(cols, rows, rowH, w + 2.0 * FX_PADX, stackH);
  }

  lemma WidthIs(lane: Lane, w: real)
    requires w == 120.0 || exists k :: 0 <= k < |lane| && w == TextW(lane[k])
    ensures WidthTaken(lane, w + 28.0)
  {
  }

  lemma RowNotEmpty(lane: Lane, cols: nat, rows: seq<seq<Box>>, r: nat)
    requires Grid(cols) && RowsHold(lane, cols, |lane|, rows) && r < |rows|
    ensures rows[r] != []
  {
  }

  function InnerW(plan: LanePlan): real
    requires Grid(plan.cols)
  {
    if plan.cols == 1 then plan.boxW else 2.0 * plan.boxW + LN_BOX_GAP
  }

  /** The width of a box once the lane is `innerW` wide. */
  function WideBox(cols: nat, innerW: real): real
    requires Grid(cols)
  {
    if cols == 1 then innerW else (innerW - LN_BOX_GAP) / 2.0
  }

  /** Where box `j` of a lane is drawn. */
  function BoxRect(plan: LanePlan, frame: Rect, innerW: real, j: nat): Rect
    requires Grid(plan.cols) && RowOf(plan.cols, j) < |plan.rowH|
  {
    var w := WideBox(plan.cols, innerW);
    var x := frame.x + LN_FPAD + (if ColumnAt(plan.cols, j) == 0 then 0.0 else w + LN_BOX_GAP);
    Rect(x, frame.y + LN_FPAD + RowTop(plan.rowH, RowOf(plan.cols, j)), w, plan.rowH[RowOf(plan.cols, j)])
  }

  predicate Framed(plan: LanePlan, frame: Rect, innerW: real)
    requires Grid(plan.cols)
  {
    innerW >= InnerW(plan) && frame.w == innerW + 2.0 * LN_FPAD && frame.h >= plan.stackH + 2.0 * LN_FPAD
  }

  /** The boxes of a lane do not touch, stay inside its frame, and hold their texts. */
  predicate LaneGood(lane: Lane, frame: Rect, boxes: seq<Rect>) {
    && |boxes| == |lane|
    && (forall j :: 0 <= j < |lane| ==> Inside(boxes[j], frame, LN_FPAD) && RoomFor(lane[j], boxes[j]))
    && (forall j, k :: 0 <= j < k < |lane| ==> Apart(boxes[j], boxes[k], LN_BOX_GAP))
  }

  predicate RoomFor(b: Box, r: Rect) {
    r.w >= TextW(b) + 2.0 * FX_PADX && r.w >= LN_MINW && r.h >= BoxH(b)
  }

  lemma RowCount(lane: Lane, plan: LanePlan, j: nat)
    requires Measured(lane, plan) && j < |lane|
    ensures RowOf(plan.cols, j) < |plan.rowH| && BoxH(lane[j]) <= plan.rowH[RowOf(plan.cols, j)]
  {
    hide BoxH, Tall, TextW, RowHeightsTaken, WidthTaken;
    var r, c := RowOf(plan.cols, j), ColumnAt(plan.cols, j);
    assert RowHolds(lane, plan.cols, |lane|, r, plan.rows[r]);
    assert At(plan.cols, r, c) == j;
    assert plan.rows[r][c] == lane[j];
  }

  lemma BoxInside(lane: Lane, plan: LanePlan, frame: Rect, innerW: real, j: nat)
    requires Measured(lane, plan) && Framed(plan, frame, innerW) && j < |lane| && RowOf(plan.cols, j) < |plan.rowH|
    ensures Inside(BoxRect(plan, frame, innerW, j), frame, LN_FPAD)
    ensures BoxRect(plan, frame, innerW, j).w >= plan.boxW
  {
    hide RowsHold, BoxH, TextW, RowHeightsTaken, WidthTaken;
    var r := RowOf(plan.cols, j);
    RowTopRises(plan.rowH, 0, r);
    RowTopRises(plan.rowH, r, |plan.rowH|);
  }

  lemma BoxesApart(lane: Lane, plan: LanePlan, frame: Rect, innerW: real, j: nat, k: nat)
    requires Measured(lane, plan) && Framed(plan, frame, innerW) && j < k < |lane|
    requires RowOf(plan.cols, j) < |plan.rowH| && RowOf(plan.cols, k) < |plan.rowH|
    ensures Apart(BoxRect(plan, frame, innerW, j), BoxRect(plan, frame, innerW, k), LN_BOX_GAP)
  {
    hide RowsHold, BoxH, TextW, RowHeightsTaken, WidthTaken;
    assert RowOf(plan.cols, j) <= RowOf(plan.cols, k);
    RowTopRises(plan.rowH, RowOf(plan.cols, j), RowOf(plan.cols, k));
  }

  /** The drawing loops of one lane: rows downwards, boxes along each row. */
  method DrawLane(lane: Lane, plan: LanePlan, frame: Rect, innerW: real) returns (boxes: seq<Rect>)
    requires Measured(lane, plan) && Framed(plan, frame, innerW)
    ensures LaneGood(lane, frame, boxes)
    ensures LaidOut(plan, frame, innerW, boxes)
  {
    hide BoxH, TextW, RowHolds, RowHeightsTaken, WidthTaken;
    var boxW := if plan.cols == 1 then innerW else (innerW - LN_BOX_GAP) / 2.0;
    boxes := [];
    var y := frame.y + LN_FPAD;
    for r := 0 to |plan.rows|
      invariant y == frame.y + LN_FPAD + RowTop(plan.rowH, r)
      invariant LaidOut(plan, frame, innerW, boxes) && |boxes| == Upto(plan.cols, |lane|, r)
    {
      RowFits(lane, plan, r);
      for c := 0 to |plan.rows[r]|
        invariant LaidOut(plan, frame, innerW, boxes) && |boxes| == At(plan.cols, r, 0) + c
      {
        var x := frame.x + LN_FPAD + c as real * (boxW + LN_BOX_GAP);
        InRow(plan, r, c, |boxes|);
        boxes := boxes + [Rect(x, y, boxW, plan.rowH[r])];
      }
      y := y + plan.rowH[r] + LN_BOX_GAP;
    }
    LaneIsGood(lane, plan, frame, innerW, boxes);
  }

  /** How many boxes the first `r` rows hold. */
  function Upto(cols: nat, n: nat, r: nat): nat
    requires Grid(cols)
  {
    if At(cols, r, 0) < n then At(cols, r, 0) else n
  }

  /** The first boxes are drawn where they belong. */
  predicate LaidOut(plan: LanePlan, frame: Rect, innerW: real, boxes: seq<Rect>)
    requires Grid(plan.cols)
  {
    forall j :: 0 <= j < |boxes| ==> RowOf(plan.cols, j) < |plan.rowH| && boxes[j] == BoxRect(plan, frame, innerW, j)
  }

  lemma RowFits(lane: Lane, plan: LanePlan, r: nat)
    requires Measured(lane, plan) && r < |plan.rows|
    ensures 0 < |plan.rows[r]| <= plan.cols && At(plan.cols, r, 0) < |lane|
    ensures Upto(plan.cols, |lane|, r + 1) == At(plan.cols, r, 0) + |plan.rows[r]|
  {
    hide BoxH, Tall, TextW, RowHeightsTaken, WidthTaken;
    assert RowHolds(lane, plan.cols, |lane|, r, plan.rows[r]);
  }

  lemma InRow(plan: LanePlan, r: nat, c: nat, j: nat)
    requires Grid(plan.cols) && c < plan.cols && j == At(plan.cols, r, 0) + c
    ensures RowOf(plan.cols, j) == r && ColumnAt(plan.cols, j) == c
  {
  }

  lemma LaneIsGood(lane: Lane, plan: LanePlan, frame: Rect, innerW: real, boxes: seq<Rect>)
    requires Measured(lane, plan) && Framed(plan, frame, innerW)
    requires LaidOut(plan, frame, innerW, boxes) && |boxes| == Upto(plan.cols, |lane|, |plan.rows|)
    ensures LaneGood(lane, frame, boxes)
  {
    hide BoxRect, BoxH, TextW, Inside, Apart, RowHolds, Framed, Tall, RowHeightsTaken, WidthTaken;
    forall j | 0 <= j < |lane|
      ensures Inside(boxes[j], frame, LN_FPAD) && RoomFor(lane[j], boxes[j])
    {
      RowCount(lane, plan, j);
      BoxInside(lane, plan, frame, innerW, j);
      BoxHeight(plan, frame, innerW, j);
    }
    forall j, k | 0 <= j < k < |lane|
      ensures Apart(boxes[j], boxes[k], LN_BOX_GAP)
    {
      RowCount(lane, plan, j);
      RowCount(lane, plan, k);
      BoxesApart(lane, plan, frame, innerW, j, k);
    }
  }

  lemma BoxHeight(plan: LanePlan, frame: Rect, innerW: real, j: nat)
    requires Grid(plan.cols) && RowOf(plan.cols, j) < |plan.rowH|
    ensures BoxRect(plan, frame, innerW, j).h == plan.rowH[RowOf(plan.cols, j)]
  {
  }

  // ----- both lanes

  datatype LanesPicture = LanesPicture(w: real, h: real, frames: (Rect, Rect), boxes: (seq<Rect>, seq<Rect>))

  /**
   lanesSvg: the two frames lie inside the view and apart, with room for their titles; within each frame
   the boxes do not touch; so no box of one lane touches a box of the other.
   */
  method LanesSvg(lanes: (Lane, Lane), bridge: Option<Width>, stacked: bool)
    returns (p: LanesPicture, ghost plans: (LanePlan, LanePlan), ghost inner: (real, real))
    ensures LaneGood(lanes.0, p.frames.0, p.boxes.0) && LaneGood(lanes.1, p.frames.1, p.boxes.1)
    ensures Inside(p.frames.0, Rect(0.0, LN_EYE, p.w, p.h - LN_EYE), FX_PAD) && Inside(p.frames.1, Rect(0.0, LN_EYE, p.w, p.h - LN_EYE), FX_PAD)
    ensures p.frames.0.h == p.frames.1.h && Apart(p.frames.0, p.frames.1, LN_GAP)
    ensures NeverMix(p.boxes.0, p.boxes.1)
    ensures stacked ==> p.frames.0.w == p.frames.1.w && p.frames.0.y + p.frames.0.h + LN_EYE < p.frames.1.y
    ensures !stacked && bridge.Some? ==> p.frames.0.x + p.frames.0.w + bridge.value + 24.0 <= p.frames.1.x
    ensures stacked && bridge.Some? ==> p.frames.0.x + p.frames.0.w / 2.0 + 8.0 + bridge.value + FX_PAD <= p.w
    ensures Measured(lanes.0, plans.0) && Measured(lanes.1, plans.1) && Grid(plans.0.cols) && Grid(plans.1.cols)
    ensures LaidOut(plans.0, p.frames.0, inner.0, p.boxes.0) && LaidOut(plans.1, p.frames.1, inner.1, p.boxes.1)
    ensures var (a, b) := (InnerW(plans.0), InnerW(plans.1)); inner == if stacked then (Max(a, b), Max(a, b)) else (a, b)
    ensures p.frames.0 == Rect(10.0, 34.0, inner.0 + 16.0, Max(plans.0.stackH, plans.1.stackH) + 16.0)
    ensures var frameH := p.frames.0.h;
      p.frames.1 == (if stacked then Rect(10.0, 34.0 + frameH + (if bridge.Some? then 40.0 else 20.0) + 24.0, inner.1 + 16.0, frameH)
         else Rect(10.0 + p.frames.0.w + (if bridge.Some? then Max(64.0, bridge.value + 24.0) else 32.0), 34.0, inner.1 + 16.0, frameH))
    ensures p.h == p.frames.1.y + p.frames.1.h + 10.0
    ensures p.w == if stacked && bridge.Some? then Max(p.frames.0.w + 20.0, 10.0 + p.frames.0.w / 2.0 + 8.0 + bridge.value + 10.0)
         else p.frames.1.x + p.frames.1.w + 10.0
  {
    hide Measured, LaneGood, NeverMix, LaidOut;
    var a := MeasureLane(lanes.0);
    var b := MeasureLane(lanes.1);
    MeasuredGrid(lanes.0, a);
    MeasuredGrid(lanes.1, b);
    var frameH := Max(a.stackH, b.stackH) + 2.0 * LN_FPAD;
    var bridgeW := if bridge.Some? then bridge.value else 0.0;
    var sharedW := Max(InnerW(a), InnerW(b));
    var innerA := if stacked then sharedW else InnerW(a);
    var innerB := if stacked then sharedW else InnerW(b);
    var frameA, frameB := innerA + 2.0 * LN_FPAD, innerB + 2.0 * LN_FPAD;
    var gap := if stacked then (if bridge.Some? then 40.0 else 20.0)
               else if bridge.Some? then Max(LN_BRIDGE_MIN, bridgeW + 24.0) else LN_GAP;
    var w, h, f, g;
    if stacked {
      f := Rect(FX_PAD, FX_PAD + LN_EYE, frameA, frameH);
      g := Rect(FX_PAD, f.y + frameH + gap + LN_EYE, frameB, frameH);
      w := frameA + 2.0 * FX_PAD;
      if bridge.Some? {
        w := Max(w, FX_PAD + frameA / 2.0 + 8.0 + bridgeW + FX_PAD);
      }
      h := g.y + frameH + FX_PAD;
    } else {
      f := Rect(FX_PAD, FX_PAD + LN_EYE, frameA, frameH);
      g := Rect(FX_PAD + frameA + gap, FX_PAD + LN_EYE, frameB, frameH);
      w := g.x + frameB + FX_PAD;
      h := FX_PAD + LN_EYE + frameH + FX_PAD;
    }
    var x := DrawLane(lanes.0, a, f, innerA);
    var y := DrawLane(lanes.1, b, g, innerB);
    LanesApart(lanes, f, g, x, y);
    p := LanesPicture(w, h, (f, g), (x, y));
    plans, inner := (a, b), (innerA, innerB);
  }

  // ----- exactly where

  /** A box of a lane stands in its row and column, of one column for up to four boxes and two for more. */
  lemma BoxRectMeans(lane: Lane, plan: LanePlan, frame: Rect, innerW: real, j: nat)
    requires Measured(lane, plan) && j < |lane| && RowOf(plan.cols, j) < |plan.rowH|
    ensures plan.cols == if |lane| <= 4 then 1 else 2
    ensures var r := BoxRect(plan, frame, innerW, j);
      && r.w == (if plan.cols == 1 then innerW else (innerW - 8.0) / 2.0)
      && r.x == frame.x + 8.0 + (if plan.cols == 1 || j % 2 == 0 then 0.0 else r.w + 8.0)
      && r.y == frame.y + 8.0 + RowTop(plan.rowH, j / plan.cols) && r.h == plan.rowH[j / plan.cols]
  {
  }

  /** A row starts 8 below the end of the one above it. */
  lemma RowsMean(rowH: seq<real>, r: nat)
    requires r < |rowH|
    ensures RowTop(rowH, 0) == 0.0 && RowTop(rowH, r + 1) == RowTop(rowH, r) + rowH[r] + 8.0
    ensures StackHeight(rowH) == RowTop(rowH, |rowH| - 1) + rowH[|rowH| - 1]
  {
  }

  /** A box is 30 high, or 40 with a second line, and as wide as its wider line; a lane's inside is one or two boxes wide. */
  lemma SizesMean(b: Box, plan: LanePlan)
    requires Grid(plan.cols)
    ensures BoxH(b) == if b.sub.Some? then 40.0 else 30.0
    ensures TextW(b) == if b.sub.Some? && b.sub.value > b.title then b.sub.value else b.title
    ensures InnerW(plan) == if plan.cols == 1 then plan.boxW else plan.boxW + 8.0 + plan.boxW
  {
  }

  lemma MeasuredGrid(lane: Lane, plan: LanePlan)
    requires Measured(lane, plan)
    ensures Grid(plan.cols) && plan.stackH >= 0.0 && plan.boxW > 0.0
  {
    if plan.rowH != [] {
      RowTopRises(plan.rowH, 0, |plan.rowH|);
    }
  }

  /** Boxes of different lanes keep the lane gap and both frame pads between them. */
  predicate NeverMix(xs: seq<Rect>, ys: seq<Rect>) {
    forall j, k :: 0 <= j < |xs| && 0 <= k < |ys| ==> Apart(xs[j], ys[k], LN_GAP + 2.0 * LN_FPAD)
  }

  lemma LanesApart(lanes: (Lane, Lane), f: Rect, g: Rect, xs: seq<Rect>, ys: seq<Rect>)
    requires LaneGood(lanes.0, f, xs) && LaneGood(lanes.1, g, ys) && Apart(f, g, LN_GAP)
    ensures NeverMix(xs, ys)
  {
    hide RoomFor;
  }
}
