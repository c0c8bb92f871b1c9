/** `layoutTOC` of main.js: the groups of the table of contents flow top to
    bottom into columns as tall as the `<tocGroup>` group, the columns share
    its width, and each group is pinned to the edges it touches; then
    `tableOfContents`, which runs the three table-of-contents steps in turn. */
module TocLayout {
  import opened Js
  import opened Layers
  import Toc

  /** The edges `setFixed_forEdge_` pins: top (32), right (1), left (4) and a
      fixed height (16). */
  datatype Pins = Pins(top: bool, right: bool, left: bool, fixedHeight: bool)

  /** A group after the layout, with its pins. */
  datatype PinnedGroup = PinnedGroup(group: Layer, pins: Pins)

  /** The state of the first `forEach` of `layoutTOC`: `columns` and `curY`. */
  datatype Flow = Flow(columns: seq<seq<Layer>>, curY: int)

  /** The total height of the groups. */
  function ColumnHeight(col: seq<Layer>): int
  {
    if col == [] then 0 else ColumnHeight(col[..|col| - 1]) + col[|col| - 1].frame.height
  }

  /** The layer moved to height `y`. */
  function AtY(g: Layer, y: int): Layer
  {
    g.(frame := g.frame.(y := y))
  }

  /** One group of the flow: it starts a new column when the current one
      is not empty and the group would reach below `tocH`. */
  function FlowStep(f: Flow, g: Layer, tocH: int): (r: Flow)
    requires |f.columns| >= 1
    ensures |r.columns| >= 1
  {
    if f.curY > 0 && f.curY + g.frame.height > tocH then
      Flow(f.columns + [[AtY(g, 0)]], g.frame.height)
    else
      var last := |f.columns| - 1;
      Flow(f.columns[..last] + [f.columns[last] + [AtY(g, f.curY)]], f.curY + g.frame.height)
  }

  /** Specification of the flow of `groups` into columns of height `tocH`. */
  function FlowSpec(groups: seq<Layer>, tocH: int): (f: Flow)
    ensures |f.columns| >= 1
  {
    if groups == [] then Flow([[]], 0)
    else FlowStep(FlowSpec(groups[..|groups| - 1], tocH), groups[|groups| - 1], tocH)
  }

  /** `Math.round(a / n)`: the nearest integer, halves rounded up. */
  function RoundDiv(a: int, n: int): int
    requires n >= 1
  {
    (2 * a + n) / (2 * n)
  }

  /** `colWidth` for `n` columns. */
  function ColWidth(tocW: int, colSpacing: int, n: int): int
    requires n >= 1
  {
    RoundDiv(tocW - colSpacing * (n - 1), n)
  }

  /** The pins of group `j` of column `i` of `n`: all cleared, the height
      fixed, the top pinned for the first group of a column, the left edge for
      the first column, else the right edge for the last. */
  function PinsAt(i: nat, j: nat, n: nat): Pins
  {
    Pins(j == 0, i != 0 && i == n - 1, i == 0, true)
  }

  /** The group moved to `x` with width `w`, and its pins. */
  function PlacedGroup(g: Layer, x: int, w: int, pins: Pins): PinnedGroup
  {
    PinnedGroup(g.(frame := g.frame.(x := x, width := w)), pins)
  }

  /** The inner loop of the second phase over column `i` of `n`. */
  function PlaceColumn(col: seq<Layer>, i: nat, n: nat, x: int, w: int): (r: seq<PinnedGroup>)
    ensures |r| == |col|
  {
    if col == [] then []
    else PlaceColumn(col[..|col| - 1], i, n, x, w) + [PlacedGroup(col[|col| - 1], x, w, PinsAt(i, |col| - 1, n))]
  }

  /** The outer loop of the second phase over the first columns of `n`. */
  function Placement(columns: seq<seq<Layer>>, colSpacing: int, w: int, n: nat): (r: seq<seq<PinnedGroup>>)
    ensures |r| == |columns|
  {
    if columns == [] then []
    else
      var i := |columns| - 1;
      Placement(columns[..i], colSpacing, w, n) + [PlaceColumn(columns[i], i, n, i * (w + colSpacing), w)]
  }

  /** What `layoutTOC` leaves: the columns of pinned groups, the column width,
      and the rectangle sized to the group. */
  datatype TocLayout = TocLayout(columns: seq<seq<PinnedGroup>>, colWidth: int, rect: Layer)

  /** The columns the groups of the `<tocGroup>` group flow into. */
  function Columns(g: Layer): (r: seq<seq<Layer>>)
    ensures |r| >= 1
  {
    FlowSpec(FilterClass(g.layers, LayerGroup), g.frame.height).columns
  }

  /** The width of those columns. */
  function WidthOf(g: Layer, colSpacing: int): int
  {
    ColWidth(g.frame.width, colSpacing, |Columns(g)|)
  }

  /** The rectangle stretched to the group's size. */
  function Sized(rect: Layer, g: Layer): Layer
  {
    rect.(frame := rect.frame.(width := g.frame.width, height := g.frame.height))
  }

  /** Specification of `layoutTOC(doc)` on the `<tocGroup>` group, with
      `Number(storedValue('tocColumnSpacing'))` as `colSpacing`. */
  function LayoutSpec(tocGroup: Option<Layer>, colSpacing: int): Outcome<TocLayout>
  {
    if tocGroup.None? then TypeError("tocGroup is undefined")
    else
      var g := tocGroup.value;
      var tocRect := FirstNamed(Children(g), RectangleShape, "<tocGroupRect>");
      if tocRect.None? then TypeError("tocRect is undefined")
      else Done(TocLayout(Placement(Columns(g), colSpacing, WidthOf(g, colSpacing), |Columns(g)|),
                          WidthOf(g, colSpacing), Sized(tocRect.value, g)))
  }

  /** `layoutTOC(doc)` */
  method LayoutTOC(tocGroup: Option<Layer>, colSpacing: int) returns (r: Outcome<TocLayout>)
    ensures r == LayoutSpec(tocGroup, colSpacing)
  {
    if tocGroup.None? {
      return TypeError("tocGroup is undefined");
    }
    var g := tocGroup.value;
    var tocRect := LayerWithName(Children(g), RectangleShape, "<tocGroupRect>");
    var placed, colWidth := Arrange(g, colSpacing);
    if tocRect.None? {
      return TypeError("tocRect is undefined");
    }
    return Done(TocLayout(placed, colWidth, Sized(tocRect.value, g)));
  }

  /** The two `forEach` passes of `layoutTOC` over the group's groups. */
  method Arrange(g: Layer, colSpacing: int) returns (placed: seq<seq<PinnedGroup>>, colWidth: int)
    ensures colWidth == WidthOf(g, colSpacing)
    ensures placed == Placement(Columns(g), colSpacing, colWidth, |Columns(g)|)
  {
    var tocW := g.frame.width;
    var tocH := g.frame.height;
    var groups := LayersWithClass(g.layers, LayerGroup);
    var columns := FlowColumns(groups, tocH);
    assert columns == Columns(g);
    var numColumns := |columns|;
    colWidth := ColWidth(tocW, colSpacing, numColumns);
    placed := PlaceColumns(columns, colSpacing, colWidth);
  }

  /** The first `forEach` of `layoutTOC`. */
  method FlowColumns(groups: seq<Layer>, tocH: int) returns (columns: seq<seq<Layer>>)
    ensures columns == FlowSpec(groups, tocH).columns
  {
    var curY := 0;
    var curCol := 0;
    columns := [[]];
    var k := 0;
    while k < |groups|
      invariant 0 <= k <= |groups|
      invariant FlowSpec(groups[..k], tocH) == Flow(columns, curY)
      invariant curCol == |columns| - 1
    {
      assert groups[..k + 1][..k] == groups[..k];
      columns, curY, curCol := FlowGroup(columns, curY, curCol, groups[k], tocH);
      k := k + 1;
    }
    assert groups[..k] == groups;
  }

  /** The body of the first `forEach`: column `curCol` is the last one. */
  method FlowGroup(columns: seq<seq<Layer>>, curY: int, curCol: nat, group: Layer, tocH: int)
    returns (columns': seq<seq<Layer>>, curY': int, curCol': nat)
    requires curCol == |columns| - 1
    ensures Flow(columns', curY') == FlowStep(Flow(columns, curY), group, tocH)
    ensures curCol' == |columns'| - 1
  {
    columns', curY', curCol' := columns, curY, curCol;
    if curY' > 0 && curY' + group.frame.height > tocH {
      curCol' := curCol' + 1;
      columns' := columns' + [[]];
      curY' := 0;
    }
    var moved := AtY(group, curY');
    curY' := curY' + moved.frame.height;
    if curCol' == curCol {
      LastUpdated(columns', columns'[curCol'] + [moved]);
    } else {
      assert columns'[curCol'] + [moved] == [moved];
      assert (columns + [[]])[curCol' := [moved]] == columns + [[moved]];
    }
    columns' := columns'[curCol' := columns'[curCol'] + [moved]];
  }

  /** The second phase of `layoutTOC`: every group of column `i` moves to
      `i * (colWidth + colSpacing)`, gets the column width and its pins. */
  method PlaceColumns(columns: seq<seq<Layer>>, colSpacing: int, colWidth: int) returns (placed: seq<seq<PinnedGroup>>)
    ensures placed == Placement(columns, colSpacing, colWidth, |columns|)
  {
    var numColumns := |columns|;
    placed := [];
    var i := 0;
    while i < numColumns
      invariant 0 <= i <= numColumns
      invariant placed == Placement(columns[..i], colSpacing, colWidth, numColumns)
    {
      assert columns[..i + 1][..i] == columns[..i];
      var x := i * (colWidth + colSpacing);
      var column := PlaceOneColumn(columns[i], i, numColumns, x, colWidth);
      placed := placed + [column];
      i := i + 1;
    }
    assert columns[..i] == columns;
  }

  /** The inner loop of the second phase, over one column. */
  method PlaceOneColumn(column: seq<Layer>, i: nat, numColumns: nat, x: int, colWidth: int) returns (r: seq<PinnedGroup>)
    ensures r == PlaceColumn(column, i, numColumns, x, colWidth)
  {
    r := [];
    var j := 0;
    while j < |column|
      invariant 0 <= j <= |column|
      invariant r == PlaceColumn(column[..j], i, numColumns, x, colWidth)
    {
      assert column[..j + 1][..j] == column[..j];
      var group := column[j];
      var pins := Pins(false, false, false, true);
      group := group.(frame := group.frame.(x := x, width := colWidth));
      if j == 0 {
        pins := pins.(top := true);
      }
      if i == 0 {
        pins := pins.(left := true);
      } else if i == numColumns - 1 {
        pins := pins.(right := true);
      }
      r := r + [PinnedGroup(group, pins)];
      j := j + 1;
    }
    assert column[..j] == column;
  }

  /** Writing the last column anew. */
  lemma LastUpdated<T>(columns: seq<seq<T>>, col: seq<T>)
    requires columns != []
    ensures columns[|columns| - 1 := col] == columns[..|columns| - 1] + [col]
  {
  }

  // ---------------------------------------------------------------------
  // what the flow promises

  /** The columns one after another. */
  function Concat(columns: seq<seq<Layer>>): seq<Layer>
  {
    if columns == [] then [] else Concat(columns[..|columns| - 1]) + columns[|columns| - 1]
  }

  /** The layers with their heights on the page forgotten. */
  function Unplaced(ls: seq<Layer>): (r: seq<Layer>)
    ensures |r| == |ls|
  {
    if ls == [] then [] else Unplaced(ls[..|ls| - 1]) + [AtY(ls[|ls| - 1], 0)]
  }

  /** Each group of the column sits right below the ones before it. */
  predicate ColumnStacked(col: seq<Layer>)
  {
    forall j :: 0 <= j < |col| ==> col[j].frame.y == ColumnHeight(col[..j])
  }

  /** The flow does not break before a group of height `h` below `above`. */
  predicate Fits(above: seq<Layer>, h: int, tocH: int)
  {
    !(ColumnHeight(above) > 0 && ColumnHeight(above) + h > tocH)
  }

  /** No group after the first of a column made the flow break. */
  predicate ColumnStays(col: seq<Layer>, tocH: int)
  {
    forall j :: 1 <= j < |col| ==> Fits(col[..j], col[j].frame.height, tocH)
  }

  predicate AllStacked(columns: seq<seq<Layer>>)
  {
    forall c :: 0 <= c < |columns| ==> ColumnStacked(columns[c])
  }

  predicate AllStay(columns: seq<seq<Layer>>, tocH: int)
  {
    forall c :: 0 <= c < |columns| ==> ColumnStays(columns[c], tocH)
  }

  /** The column `next` starts with a group that did not fit below the
      non-empty column `prev`. */
  predicate BreakBetween(prev: seq<Layer>, next: seq<Layer>, tocH: int)
  {
    next != [] && ColumnHeight(prev) > 0 && !Fits(prev, next[0].frame.height, tocH)
  }

  /** Every column after the first starts where the one before it overflowed. */
  predicate Breaks(columns: seq<seq<Layer>>, tocH: int)
  {
    forall c :: 0 < c < |columns| ==> BreakBetween(columns[c - 1], columns[c], tocH)
  }

  /** The last column's height is `curY`. */
  predicate Bottom(f: Flow)
  {
    |f.columns| >= 1 && f.curY == ColumnHeight(f.columns[|f.columns| - 1])
  }

  lemma HeightAppend(col: seq<Layer>, g: Layer)
    ensures ColumnHeight(col + [g]) == ColumnHeight(col) + g.frame.height
  {
    assert (col + [g])[..|col|] == col;
  }

  lemma ColumnStackedAppend(col: seq<Layer>, g: Layer)
    requires ColumnStacked(col) && g.frame.y == ColumnHeight(col)
    ensures ColumnStacked(col + [g])
  {
    var c2 := col + [g];
    assert c2[..|col|] == col;
    forall j | 0 <= j < |col| ensures c2[..j] == col[..j] {
    }
  }

  lemma ColumnStaysAppend(col: seq<Layer>, g: Layer, tocH: int)
    requires ColumnStays(col, tocH) && (col != [] ==> Fits(col, g.frame.height, tocH))
    ensures ColumnStays(col + [g], tocH)
  {
    var c2 := col + [g];
    assert c2[..|col|] == col;
    forall j | 0 <= j < |col| ensures c2[..j] == col[..j] {
    }
  }

  lemma {:induction false} StepBottom(f: Flow, g: Layer, tocH: int)
    requires Bottom(f)
    ensures Bottom(FlowStep(f, g, tocH))
  {
    var last := |f.columns| - 1;
    if f.curY > 0 && f.curY + g.frame.height > tocH {
      HeightAppend([], AtY(g, 0));
      assert [] + [AtY(g, 0)] == [AtY(g, 0)];
    } else {
      HeightAppend(f.columns[last], AtY(g, f.curY));
    }
  }

  lemma {:induction false} StepStacked(f: Flow, g: Layer, tocH: int)
    requires Bottom(f) && AllStacked(f.columns)
    ensures AllStacked(FlowStep(f, g, tocH).columns)
  {
    var last := |f.columns| - 1;
    var cols := FlowStep(f, g, tocH).columns;
    if f.curY > 0 && f.curY + g.frame.height > tocH {
      assert [AtY(g, 0)][..0] == [];
      assert ColumnStacked([AtY(g, 0)]);
      forall c | 0 <= c < |cols| ensures ColumnStacked(cols[c]) {
        if c < |f.columns| {
          assert cols[c] == f.columns[c];
        }
      }
    } else {
      ColumnStackedAppend(f.columns[last], AtY(g, f.curY));
      forall c | 0 <= c < |cols| ensures ColumnStacked(cols[c]) {
        if c < last {
          assert cols[c] == f.columns[c];
        }
      }
    }
  }

  lemma {:induction false} StepStays(f: Flow, g: Layer, tocH: int)
    requires Bottom(f) && AllStay(f.columns, tocH)
    ensures AllStay(FlowStep(f, g, tocH).columns, tocH)
  {
    var last := |f.columns| - 1;
    var cols := FlowStep(f, g, tocH).columns;
    if f.curY > 0 && f.curY + g.frame.height > tocH {
      assert ColumnStays([AtY(g, 0)], tocH);
      forall c | 0 <= c < |cols| ensures ColumnStays(cols[c], tocH) {
        if c < |f.columns| {
          assert cols[c] == f.columns[c];
        }
      }
    } else {
      ColumnStaysAppend(f.columns[last], AtY(g, f.curY), tocH);
      forall c | 0 <= c < |cols| ensures ColumnStays(cols[c], tocH) {
        if c < last {
          assert cols[c] == f.columns[c];
        }
      }
    }
  }

  lemma {:induction false} StepBreaks(f: Flow, g: Layer, tocH: int)
    requires Bottom(f) && Breaks(f.columns, tocH)
    ensures Breaks(FlowStep(f, g, tocH).columns, tocH)
  {
    var last := |f.columns| - 1;
    var cols := FlowStep(f, g, tocH).columns;
    if f.curY > 0 && f.curY + g.frame.height > tocH {
      forall c | 0 < c < |cols| ensures BreakBetween(cols[c - 1], cols[c], tocH) {
        if c < |f.columns| {
          assert cols[c - 1] == f.columns[c - 1] && cols[c] == f.columns[c];
        } else {
          assert cols[c - 1] == f.columns[last];
        }
      }
    } else {
      forall c | 0 < c < |cols| ensures BreakBetween(cols[c - 1], cols[c], tocH) {
        assert cols[c - 1] == f.columns[c - 1];
        if c < last {
          assert cols[c] == f.columns[c];
        } else {
          assert BreakBetween(f.columns[c - 1], f.columns[c], tocH);
          assert cols[c][0] == f.columns[c][0];
        }
      }
    }
  }

  lemma {:induction false} FlowBottom(groups: seq<Layer>, tocH: int)
    ensures Bottom(FlowSpec(groups, tocH))
  {
    if groups != [] {
      FlowBottom(groups[..|groups| - 1], tocH);
      StepBottom(FlowSpec(groups[..|groups| - 1], tocH), groups[|groups| - 1], tocH);
    }
  }

  lemma {:induction false} FlowStacked(groups: seq<Layer>, tocH: int)
    ensures AllStacked(FlowSpec(groups, tocH).columns)
  {
    if groups != [] {
      FlowBottom(groups[..|groups| - 1], tocH);
      FlowStacked(groups[..|groups| - 1], tocH);
      StepStacked(FlowSpec(groups[..|groups| - 1], tocH), groups[|groups| - 1], tocH);
    } else {
      assert ColumnStacked([]);
    }
  }

  lemma {:induction false} FlowStays(groups: seq<Layer>, tocH: int)
    ensures AllStay(FlowSpec(groups, tocH).columns, tocH)
  {
    if groups != [] {
      FlowBottom(groups[..|groups| - 1], tocH);
      FlowStays(groups[..|groups| - 1], tocH);
      StepStays(FlowSpec(groups[..|groups| - 1], tocH), groups[|groups| - 1], tocH);
    } else {
      assert ColumnStays([], tocH);
    }
  }

  lemma {:induction false} FlowBreaks(groups: seq<Layer>, tocH: int)
    ensures Breaks(FlowSpec(groups, tocH).columns, tocH)
  {
    if groups != [] {
      FlowBottom(groups[..|groups| - 1], tocH);
      FlowBreaks(groups[..|groups| - 1], tocH);
      StepBreaks(FlowSpec(groups[..|groups| - 1], tocH), groups[|groups| - 1], tocH);
    }
  }

  /** The flow stacks each column from the top, moves to a new column only
      when the group does not fit below a non-empty one, and keeps `curY` at
      the bottom of the last column. */
  lemma FlowShape(groups: seq<Layer>, tocH: int)
    ensures var f := FlowSpec(groups, tocH);
      Bottom(f) && AllStacked(f.columns) && AllStay(f.columns, tocH) && Breaks(f.columns, tocH)
  {
    FlowBottom(groups, tocH);
    FlowStacked(groups, tocH);
    FlowStays(groups, tocH);
    FlowBreaks(groups, tocH);
  }

  /** Concatenating after a new group at the end of the last column, or in
      a new column. */
  lemma ConcatAppend(columns: seq<seq<Layer>>, col: seq<Layer>)
    ensures Concat(columns + [col]) == Concat(columns) + col
  {
    assert (columns + [col])[..|columns|] == columns;
  }

  lemma ConcatGrowLast(init: seq<seq<Layer>>, c: seq<Layer>, g: Layer)
    ensures Concat(init + [c + [g]]) == Concat(init + [c]) + [g]
  {
    ConcatAppend(init, c + [g]);
    ConcatAppend(init, c);
    assert Concat(init) + (c + [g]) == (Concat(init) + c) + [g];
  }

  lemma ConcatExtendLast(columns: seq<seq<Layer>>, g: Layer)
    requires columns != []
    ensures var last := |columns| - 1;
      Concat(columns[..last] + [columns[last] + [g]]) == Concat(columns) + [g]
  {
    var last := |columns| - 1;
    assert columns == columns[..last] + [columns[last]];
    ConcatGrowLast(columns[..last], columns[last], g);
  }

  /** Forgetting heights commutes with one more layer. */
  lemma UnplacedAppend(ls: seq<Layer>, g: Layer)
    ensures Unplaced(ls + [g]) == Unplaced(ls) + [AtY(g, 0)]
  {
    assert (ls + [g])[..|ls|] == ls;
  }

  /** The columns hold the groups, in order, each with only its height on
      the page changed. */
  lemma {:induction false} FlowKeepsGroups(groups: seq<Layer>, tocH: int)
    ensures Unplaced(Concat(FlowSpec(groups, tocH).columns)) == Unplaced(groups)
  {
    if groups == [] {
      assert Concat([[]]) == Concat([]) + [] by {
        ConcatAppend([], []);
      }
    } else {
      var front := groups[..|groups| - 1];
      FlowKeepsGroups(front, tocH);
      var f := FlowSpec(front, tocH);
      var g := groups[|groups| - 1];
      var moved := if f.curY > 0 && f.curY + g.frame.height > tocH then AtY(g, 0) else AtY(g, f.curY);
      if f.curY > 0 && f.curY + g.frame.height > tocH {
        ConcatAppend(f.columns, [moved]);
      } else {
        ConcatExtendLast(f.columns, moved);
      }
      assert Concat(FlowSpec(groups, tocH).columns) == Concat(f.columns) + [moved];
      UnplacedAppend(Concat(f.columns), moved);
      UnplacedAppend(front, g);
      assert groups == front + [g];
      assert AtY(moved, 0) == AtY(g, 0);
    }
  }

  // ---------------------------------------------------------------------
  // what the placement promises

  /** `Math.round` is within half a unit: `n` columns of the rounded width
      and the spacing between them end within half a pixel per column of
      the group's width. */
  lemma RoundedWidth(tocW: int, colSpacing: int, n: int)
    requires n >= 1
    ensures var w := ColWidth(tocW, colSpacing, n);
      -n <= 2 * (tocW - (n * w + (n - 1) * colSpacing)) < n
  {
    var a := tocW - colSpacing * (n - 1);
    var q := (2 * a + n) / (2 * n);
    var r := (2 * a + n) % (2 * n);
    assert 2 * a + n == 2 * n * q + r && 0 <= r < 2 * n;
    assert 2 * (a - n * q) == r - n;
    assert n * q + (n - 1) * colSpacing == n * q + colSpacing * (n - 1);
  }

  /** Group `j` of column `i` ends up at the column's left edge, with the
      column width and its pins, and nothing else about it changes. */
  lemma {:induction false} PlaceColumnMeaning(col: seq<Layer>, i: nat, n: nat, x: int, w: int)
    ensures forall j :: 0 <= j < |col| ==> PlaceColumn(col, i, n, x, w)[j] == PlacedGroup(col[j], x, w, PinsAt(i, j, n))
  {
    if col != [] {
      PlaceColumnMeaning(col[..|col| - 1], i, n, x, w);
    }
  }

  /** Column `i` of the placement is column `i` of the flow at
      `i * (w + colSpacing)`. */
  lemma {:induction false} PlacementMeaning(columns: seq<seq<Layer>>, colSpacing: int, w: int, n: nat)
    ensures forall i :: 0 <= i < |columns| ==>
      Placement(columns, colSpacing, w, n)[i] == PlaceColumn(columns[i], i, n, i * (w + colSpacing), w)
  {
    if columns != [] {
      PlacementMeaning(columns[..|columns| - 1], colSpacing, w, n);
    }
  }

  /** The pins: every group has a fixed height; exactly the top group of a
      column is pinned at the top; the first column is pinned left; the last
      is pinned right when there are several; no group is pinned both left
      and right. */
  lemma PinsMeaning(i: nat, j: nat, n: nat)
    requires i < n
    ensures var p := PinsAt(i, j, n);
      && p.fixedHeight
      && (p.top <==> j == 0)
      && (p.left <==> i == 0)
      && (p.right <==> n > 1 && i == n - 1)
      && !(p.left && p.right)
  {
  }

  /** `layoutTOC` throws exactly when the group or its rectangle is missing. */
  lemma LayoutSucceeds(tocGroup: Option<Layer>, colSpacing: int)
    ensures LayoutSpec(tocGroup, colSpacing).Done? <==>
      tocGroup.Some? && FirstNamed(Children(tocGroup.value), RectangleShape, "<tocGroupRect>").Some?
  {
  }

  /** The columns of the group: every group of the `<tocGroup>` group is in
      exactly one column, in order, with only its height changed; each
      column is stacked from the top; a group starts a new column only when
      it does not fit below a non-empty one. */
  lemma ColumnsMeaning(g: Layer)
    ensures var cols := Columns(g);
      && Unplaced(Concat(cols)) == Unplaced(FilterClass(g.layers, LayerGroup))
      && AllStacked(cols) && AllStay(cols, g.frame.height) && Breaks(cols, g.frame.height)
  {
    FlowKeepsGroups(FilterClass(g.layers, LayerGroup), g.frame.height);
    FlowShape(FilterClass(g.layers, LayerGroup), g.frame.height);
  }

  /** When `layoutTOC` returns normally, group `j` of column `i` sits at
      `i * (colWidth + colSpacing)` with the column width and the pins of
      its place, the columns together span the group's width up to the
      rounding, and the rectangle takes the group's size. */
  lemma LayoutMeaning(g: Layer, colSpacing: int)
    requires LayoutSpec(Some(g), colSpacing).Done?
    ensures var out := LayoutSpec(Some(g), colSpacing).value;
      var cols := Columns(g);
      var n := |cols|;
      && out.colWidth == WidthOf(g, colSpacing)
      && -n <= 2 * (g.frame.width - (n * out.colWidth + (n - 1) * colSpacing)) < n
      && |out.columns| == n
      && (forall i :: 0 <= i < n ==> |out.columns[i]| == |cols[i]|)
      && (forall i, j :: 0 <= i < n && 0 <= j < |cols[i]| ==>
            out.columns[i][j] == PlacedGroup(cols[i][j], i * (out.colWidth + colSpacing), out.colWidth, PinsAt(i, j, n)))
      && out.rect.frame.width == g.frame.width && out.rect.frame.height == g.frame.height
  {
    var cols := Columns(g);
    var n := |cols|;
    var w := WidthOf(g, colSpacing);
    RoundedWidth(g.frame.width, colSpacing, n);
    assert LayoutSpec(Some(g), colSpacing).value.columns == Placement(cols, colSpacing, w, n);
    PlacementGrid(cols, colSpacing, w, n);
  }

  /** Group `j` of column `i` of the placement is group `j` of column `i`
      of the flow, placed at `i * (w + colSpacing)` with the pins of its place. */
  lemma PlacementGrid(cols: seq<seq<Layer>>, colSpacing: int, w: int, n: nat)
    ensures var p := Placement(cols, colSpacing, w, n);
      && (forall i :: 0 <= i < |cols| ==> |p[i]| == |cols[i]|)
      && (forall i, j :: 0 <= i < |cols| && 0 <= j < |cols[i]| ==>
            p[i][j] == PlacedGroup(cols[i][j], i * (w + colSpacing), w, PinsAt(i, j, n)))
  {
    PlacementMeaning(cols, colSpacing, w, n);
    forall i | 0 <= i < |cols|
      ensures forall j :: 0 <= j < |cols[i]| ==>
        Placement(cols, colSpacing, w, n)[i][j] == PlacedGroup(cols[i][j], i * (w + colSpacing), w, PinsAt(i, j, n))
    {
      PlaceColumnMeaning(cols[i], i, n, i * (w + colSpacing), w);
    }
  }

  // ---------------------------------------------------------------------
  // tableOfContents

  /** Specification of `tableOfContents(context, tocArray, summary)`: the
      emptied group is filled and then laid out; a throw in `createTOC`
      ends it. */
  function TableSpec(pageLayers: seq<Layer>, masters: seq<Layer>, showSectionsOnly: bool,
                     freshOverrides: map<string, JsValue>, fit: seq<Layer> -> Frame,
                     entries: seq<Toc.TocEntry>, colSpacing: int): Outcome<TocLayout>
  {
    match Toc.CreateSpec(showSectionsOnly, masters, Toc.InitializedGroup(pageLayers), freshOverrides, fit, entries)
    case TypeError(w) => TypeError(w)
    case Done(g) => LayoutSpec(Some(g), colSpacing)
  }

  /** `tableOfContents(context, tocArray, summary)` */
  method TableOfContents(pageLayers: seq<Layer>, masters: seq<Layer>, showSectionsOnly: bool,
                         freshOverrides: map<string, JsValue>, fit: seq<Layer> -> Frame,
                         entries: seq<Toc.TocEntry>, colSpacing: int, summary: seq<string>)
    returns (r: Outcome<TocLayout>, out: seq<string>)
    ensures r == TableSpec(pageLayers, masters, showSectionsOnly, freshOverrides, fit, entries, colSpacing)
    ensures out == summary + if Toc.CreateSpec(showSectionsOnly, masters, Toc.InitializedGroup(pageLayers), freshOverrides, fit, entries).Done?
                             then [Toc.CountLine(|Toc.ListedEntries(entries, showSectionsOnly)|)] else []
  {
    var initialized, tocGroup := Toc.InitializeTOC(pageLayers);
    var created;
    created, out := Toc.CreateTOC(showSectionsOnly, masters, tocGroup, freshOverrides, fit, entries, summary);
    if created.TypeError? {
      assert out == summary + [];
      return TypeError(created.what), out;
    }
    r := LayoutTOC(Some(created.value), colSpacing);
  }

  /** With the table's group and rectangle on the page, the masters for its
      entries and no symbol instance left in the group, the table is filled
      and laid out without a throw; without the group it always throws. */
  lemma TableSucceeds(pageLayers: seq<Layer>, masters: seq<Layer>, showSectionsOnly: bool,
                      freshOverrides: map<string, JsValue>, fit: seq<Layer> -> Frame,
                      entries: seq<Toc.TocEntry>, colSpacing: int)
    ensures Toc.InitializedGroup(pageLayers).None? ==>
      TableSpec(pageLayers, masters, showSectionsOnly, freshOverrides, fit, entries, colSpacing).TypeError?
    ensures var g := Toc.InitializedGroup(pageLayers);
      g.Some? && Toc.StrayInstances(g.value) == []
      && Toc.CanPlaceAll(Toc.SetupOf(showSectionsOnly, masters, g, freshOverrides), Toc.ListedEntries(entries, showSectionsOnly))
      && FirstNamed(Children(g.value), RectangleShape, "<tocGroupRect>").Some?
      ==> TableSpec(pageLayers, masters, showSectionsOnly, freshOverrides, fit, entries, colSpacing).Done?
  {
    var g := Toc.InitializedGroup(pageLayers);
    Toc.CreateSucceeds(showSectionsOnly, masters, g, freshOverrides, fit, entries);
    if Toc.CreateSpec(showSectionsOnly, masters, g, freshOverrides, fit, entries).Done? {
      var c := Toc.CreateSpec(showSectionsOnly, masters, g, freshOverrides, fit, entries).value;
      Toc.CreateMeaning(showSectionsOnly, masters, g, freshOverrides, fit, entries);
      var runs := Toc.Build(Toc.SetupOf(showSectionsOnly, masters, g, freshOverrides), entries, |entries|).value.runs;
      Toc.FinishMeaning(g, runs, fit);
      RectKept(g.value, c);
    }
  }

  /** Adding layers at the end keeps a rectangle found among the group's
      children. */
  lemma RectKept(before: Layer, after: Layer)
    requires after == before.(layers := after.layers)
    requires |after.layers| >= |before.layers| && after.layers[..|before.layers|] == before.layers
    ensures FirstNamed(Children(before), RectangleShape, "<tocGroupRect>").Some? ==>
            FirstNamed(Children(after), RectangleShape, "<tocGroupRect>").Some?
  {
    var name := "<tocGroupRect>";
    var extra := after.layers[|before.layers|..];
    assert after.layers == before.layers + extra;
    ChildrenOfAllAppend(before.layers, extra);
    NamedLayersAppend([before], ChildrenOfAll(before.layers), RectangleShape, name);
    NamedLayersAppend([after], ChildrenOfAll(after.layers), RectangleShape, name);
    NamedLayersAppend(ChildrenOfAll(before.layers), ChildrenOfAll(extra), RectangleShape, name);
    assert NamedLayers([before], RectangleShape, name) != [] ==> NamedLayers([after], RectangleShape, name) != [] by {
      assert [before][..0] == [] && [after][..0] == [];
    }
  }

  /** The descendants of two runs of layers are the descendants of each. */
  lemma {:induction false} ChildrenOfAllAppend(a: seq<Layer>, b: seq<Layer>)
    ensures ChildrenOfAll(a + b) == ChildrenOfAll(a) + ChildrenOfAll(b)
  {
    if a != [] {
      assert (a + b)[1..] == a[1..] + b;
      ChildrenOfAllAppend(a[1..], b);
    } else {
      assert a + b == b;
    }
  }
}
