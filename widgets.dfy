// The heatmap widgets' arithmetic: packing the screens side by side, binning
// clicks into a quarter-resolution grid per screen, and the key heat ratio.

module Widgets {
  import opened Common

  datatype Rect = Rect(x: int, y: int, width: int, height: int)

  /** A monitor: its name and its geometry on the virtual desktop. */
  datatype Screen = Screen(name: string, geometry: Rect)

  /** One entry of the packed layout: the screen, where it is drawn, where it really is. */
  datatype Placement = Placement(screen: Screen, packed: Rect, realRect: Rect)

  /** Horizontal gap between packed screens, in pixels. */
  const Gap := 20

  // ---------------------------------------------------------------------------
  // get_packed_layout
  // ---------------------------------------------------------------------------

  /** The sort key of `sorted(screens, key=lambda s: s.geometry().x())`. */
  function ByX(a: Screen, b: Screen): bool {
    a.geometry.x <= b.geometry.x
  }

  function ScreenOf(p: Placement): Screen { p.screen }

  /** `min(s.geometry().y() for s in screens)` */
  function MinY(screens: seq<Screen>): (m: int)
    requires screens != []
    ensures forall i :: 0 <= i < |screens| ==> m <= screens[i].geometry.y
    ensures exists i :: 0 <= i < |screens| && m == screens[i].geometry.y
  {
    if |screens| == 1 then screens[0].geometry.y
    else
      var rest := MinY(screens[1..]);
      assert forall i :: 1 <= i < |screens| ==> screens[i] == screens[1..][i - 1];
      if screens[0].geometry.y <= rest then screens[0].geometry.y else rest
  }

  /** A placement keeps the real geometry and its size, and lifts it by `minY`. */
  predicate Shaped(p: Placement, minY: int) {
    && p.realRect == p.screen.geometry
    && p.packed.y == p.realRect.y - minY
    && p.packed.width == p.realRect.width
    && p.packed.height == p.realRect.height
  }

  /** The first screen starts at x = 0 and each next one a gap after the previous one's right edge. */
  predicate SideBySide(layout: seq<Placement>) {
    && (|layout| > 0 ==> layout[0].packed.x == 0)
    && forall i :: 0 < i < |layout| ==>
         layout[i].packed.x == layout[i - 1].packed.x + layout[i - 1].packed.width + Gap
  }

  /** Placing a screen at the running x, shifted up by `minY`, keeps the layout side by side. */
  lemma PlacedNext(layout: seq<Placement>, placed: Placement, minY: int, x: int)
    requires SideBySide(layout)
    requires x == if layout == [] then 0 else layout[|layout| - 1].packed.x + layout[|layout| - 1].packed.width + Gap
    requires placed.packed.x == x
    ensures SideBySide(layout + [placed])
  {
    var l := layout + [placed];
    forall i | 0 < i < |l| ensures l[i].packed.x == l[i - 1].packed.x + l[i - 1].packed.width + Gap {
      if i < |layout| {
        assert l[i] == layout[i] && l[i - 1] == layout[i - 1];
      }
    }
  }

  /** Packed screens of non-negative width are apart by at least the gap, left to right. */
  lemma {:induction false} SideBySideSeparated(layout: seq<Placement>, i: int, j: int)
    requires SideBySide(layout) && 0 <= i < j < |layout|
    requires forall k :: 0 <= k < |layout| ==> layout[k].packed.width >= 0
    ensures layout[i].packed.x + layout[i].packed.width + Gap <= layout[j].packed.x
    decreases j - i
  {
    if j > i + 1 {
      SideBySideSeparated(layout, i, j - 1);
    }
  }

  /** Every screen of the packing order lies at or below the topmost one. */
  lemma SortedAboveMin(screens: seq<Screen>)
    requires screens != []
    ensures forall j :: 0 <= j < |SortBy(screens, ByX)| ==> MinY(screens) <= SortBy(screens, ByX)[j].geometry.y
  {
    var sorted := SortBy(screens, ByX);
    forall j | 0 <= j < |sorted| ensures MinY(screens) <= sorted[j].geometry.y {
      assert sorted[j] in multiset(sorted);
      assert sorted[j] in screens;
    }
  }

  lemma ByXTotalOn(s: seq<Screen>)
    ensures TotalOn(s, ByX)
  {
  }

  /** The packing order lists every screen once, by increasing x. */
  lemma PackingOrder(screens: seq<Screen>)
    ensures SortedBy(SortBy(screens, ByX), ByX)
    ensures multiset(SortBy(screens, ByX)) == multiset(screens)
  {
    ByXTotalOn(screens);
    SortBySorted(screens, ByX);
  }

  // ---------------------------------------------------------------------------
  // generate_screen_heatmap: the grid accumulation
  // ---------------------------------------------------------------------------

  /** `x0 <= px < x0 + w and y0 <= py < y0 + h` */
  predicate InScreen(g: Rect, p: (int, int)) {
    g.x <= p.0 < g.x + g.width && g.y <= p.1 < g.y + g.height
  }

  /** `(gy, gx)` of an in-screen point: its offset from the corner scaled by 0.25 and truncated. */
  function Cell(g: Rect, p: (int, int)): (int, int) {
    ((p.1 - g.y) / 4, (p.0 - g.x) / 4)
  }

  /** `int(h * 0.25) + 1` rows: `int` truncates toward zero, so for a size of at least
      zero the rows are the 4-pixel bands that cover it, and there is at least one. */
  function GridHeight(g: Rect): (r: int)
    ensures g.height >= 0 ==> r >= 1 && 4 * (r - 1) <= g.height < 4 * r
    ensures g.height < 0 ==> 4 * (r - 1) - 4 < g.height <= 4 * (r - 1)
  {
    if g.height >= 0 then g.height / 4 + 1 else 1 - (-g.height) / 4
  }

  /** `int(w * 0.25) + 1` columns, truncated the same way. */
  function GridWidth(g: Rect): (r: int)
    ensures g.width >= 0 ==> r >= 1 && 4 * (r - 1) <= g.width < 4 * r
    ensures g.width < 0 ==> 4 * (r - 1) - 4 < g.width <= 4 * (r - 1)
  {
    if g.width >= 0 then g.width / 4 + 1 else 1 - (-g.width) / 4
  }

  /** Every in-screen point falls in a grid cell, so the range guard never drops one. */
  lemma CellInRange(g: Rect, p: (int, int))
    requires InScreen(g, p)
    ensures 0 <= Cell(g, p).0 < GridHeight(g) && 0 <= Cell(g, p).1 < GridWidth(g)
  {
  }

  /** The clicks of `data` that land in `cell` of screen `g`. */
  ghost function Points(data: map<(int, int), int>, g: Rect, cell: (int, int)): map<(int, int), int> {
    map p | p in data && InScreen(g, p) && Cell(g, p) == cell :: data[p]
  }

  /** What the grid holds in `cell` once every click has been accumulated. */
  ghost function CellTotal(data: map<(int, int), int>, g: Rect, cell: (int, int)): int {
    MapSum(Points(data, g, cell))
  }

  /** A new click adds its count to its own cell and to no other. */
  lemma CellTotalAdd(data: map<(int, int), int>, p: (int, int), v: int, g: Rect, cell: (int, int))
    requires p !in data
    ensures CellTotal(data[p := v], g, cell) ==
      CellTotal(data, g, cell) + (if InScreen(g, p) && Cell(g, p) == cell then v else 0)
  {
    if InScreen(g, p) && Cell(g, p) == cell {
      assert Points(data[p := v], g, cell) == Points(data, g, cell)[p := v];
      SumOfUpdate(Points(data, g, cell), Identity, p, v);
    } else {
      assert Points(data[p := v], g, cell) == Points(data, g, cell);
    }
  }

  /** The clicks on screen `g`. */
  ghost function InScreenCounts(data: map<(int, int), int>, g: Rect): map<(int, int), int> {
    map p | p in data && InScreen(g, p) :: data[p]
  }

  /** The non-empty cells of the grid, with their totals. */
  ghost function Binned(data: map<(int, int), int>, g: Rect): map<(int, int), int> {
    map cell | cell in (set p | p in data && InScreen(g, p) :: Cell(g, p)) :: CellTotal(data, g, cell)
  }

  /** A cell no click lands in holds 0. */
  lemma UnbinnedCellEmpty(data: map<(int, int), int>, g: Rect, cell: (int, int))
    requires cell !in Binned(data, g)
    ensures CellTotal(data, g, cell) == 0
  {
    assert Points(data, g, cell) == map[];
  }

  /** A click on the screen adds its count to its cell, creating the cell if it was empty. */
  lemma BinnedAdd(data: map<(int, int), int>, p: (int, int), v: int, g: Rect)
    requires p !in data && InScreen(g, p)
    ensures Binned(data[p := v], g) == Increment(Binned(data, g), Cell(g, p), v)
  {
    var c := Cell(g, p);
    var before, after := Binned(data, g), Binned(data[p := v], g);
    forall cell ensures cell in after <==> cell in before || cell == c {
      if cell in after && cell != c {
        var q :| q in data[p := v] && InScreen(g, q) && Cell(g, q) == cell;
        assert q in data;
      }
      if cell in before {
        var q :| q in data && InScreen(g, q) && Cell(g, q) == cell;
        assert q in data[p := v];
      }
      if cell == c {
        assert p in data[p := v];
      }
    }
    forall cell | cell in after ensures after[cell] == Increment(before, c, v)[cell] {
      CellTotalAdd(data, p, v, g, cell);
      if cell == c && c !in before {
        UnbinnedCellEmpty(data, g, c);
      }
    }
  }

  /** A click off the screen changes no cell. */
  lemma BinnedSkip(data: map<(int, int), int>, p: (int, int), v: int, g: Rect)
    requires p !in data && !InScreen(g, p)
    ensures Binned(data[p := v], g) == Binned(data, g)
  {
    var before, after := Binned(data, g), Binned(data[p := v], g);
    forall cell ensures cell in after <==> cell in before {
      if cell in after {
        var q :| q in data[p := v] && InScreen(g, q) && Cell(g, q) == cell;
        assert q in data;
      }
      if cell in before {
        var q :| q in data && InScreen(g, q) && Cell(g, q) == cell;
        assert q in data[p := v];
      }
    }
    forall cell | cell in after ensures after[cell] == before[cell] {
      CellTotalAdd(data, p, v, g, cell);
    }
  }

  /** The grid's total is the total of the clicks on the screen. */
  lemma {:induction false} BinnedTotal(data: map<(int, int), int>, g: Rect)
    ensures MapSum(Binned(data, g)) == MapSum(InScreenCounts(data, g))
    decreases data.Keys
  {
    if data.Keys == {} {
      assert Binned(data, g) == map[];
      assert InScreenCounts(data, g) == map[];
    } else {
      var p :| p in data;
      var rest := data - {p};
      assert data == rest[p := data[p]];
      BinnedTotal(rest, g);
      if InScreen(g, p) {
        assert InScreenCounts(data, g) == InScreenCounts(rest, g)[p := data[p]];
        SumOfUpdate(InScreenCounts(rest, g), Identity, p, data[p]);
        BinnedAdd(rest, p, data[p], g);
        IncrementSum(Binned(rest, g), Cell(g, p), data[p]);
      } else {
        assert InScreenCounts(data, g) == InScreenCounts(rest, g);
        BinnedSkip(rest, p, data[p], g);
      }
    }
  }

  // ---------------------------------------------------------------------------
  // HeatmapWidget.paintEvent: the heat of one key
  // ---------------------------------------------------------------------------

  /** `min(count / max_count, 1.0)` when `count > 0 and max_count > 0`; `None` is the grey key. */
  function HeatRatio(count: int, maxCount: int): (r: Option<real>)
    ensures r.Some? <==> count > 0 && maxCount > 0
    ensures r.Some? ==> 0.0 < r.value <= 1.0
  {
    if count > 0 && maxCount > 0 then
      var ratio := count as real / maxCount as real;
      Some(if ratio < 1.0 then ratio else 1.0)
    else None
  }

  /** `max(self.data.values()) if self.data else 1` */
  ghost predicate IsMaxCount(data: map<int, int>, m: int) {
    if data == map[] then m == 1
    else (exists k :: k in data && data[k] == m) && forall k :: k in data ==> data[k] <= m
  }

  /** A key pressed at all is coloured in proportion to the busiest key: the cap at 1 never bites. */
  lemma KeyHeat(data: map<int, int>, m: int, code: int)
    requires IsMaxCount(data, m)
    ensures HeatRatio(Get(data, code, 0), m).Some? <==> code in data && data[code] > 0
    ensures code in data && data[code] > 0 ==>
      HeatRatio(data[code], m) == Some(data[code] as real / m as real)
  {
    if code in data && data[code] > 0 {
      UnitFraction(data[code] as real, m as real);
    }
  }

  // ---------------------------------------------------------------------------
  // MouseHeatmapWidget
  // ---------------------------------------------------------------------------

  class MouseHeatmapWidget {
    /** Click counts by pixel, `{(x, y): count}`. */
    var data: map<(int, int), int>

    /** `data or {}`: a widget created without data starts empty. */
    constructor(data: Option<map<(int, int), int>>)
      ensures data.Some? ==> this.data == data.value
      ensures data.None? ==> this.data == map[]
    {
      this.data := if data.Some? then data.value else map[];
    }

    /** `update_data` */
    method UpdateData(data: map<(int, int), int>)
      modifies this
      ensures this.data == data
    {
      this.data := data;
    }

    /** `get_packed_layout`: screens by increasing x, packed left to right `Gap` apart,
        each keeping its size and its height above the topmost screen. */
    static method PackedLayout(screens: seq<Screen>) returns (layout: seq<Placement>)
      ensures MapSeq(layout, ScreenOf) == SortBy(screens, ByX)
      ensures SideBySide(layout)
      ensures screens != [] ==> forall i :: 0 <= i < |layout| ==> Shaped(layout[i], MinY(screens))
      ensures forall i :: 0 <= i < |layout| ==> layout[i].packed.y >= 0
    {
      if screens == [] {
        return [];
      }
      var sorted := SortBy(screens, ByX);
      var minY := MinY(screens);
      SortedAboveMin(screens);
      layout := [];
      var currentX := 0;
      for i := 0 to |sorted|
        invariant |layout| == i
        invariant forall j :: 0 <= j < i ==> layout[j].screen == sorted[j]
        invariant SideBySide(layout)
        invariant forall j :: 0 <= j < i ==> Shaped(layout[j], minY) && layout[j].packed.y >= 0
        invariant currentX == if i == 0 then 0 else layout[i - 1].packed.x + layout[i - 1].packed.width + Gap
      {
        var geom := sorted[i].geometry;
        var placed := Placement(sorted[i], Rect(currentX, geom.y - minY, geom.width, geom.height), geom);
        PlacedNext(layout, placed, minY, currentX);
        layout := layout + [placed];
        currentX := currentX + geom.width + Gap;
      }
      assert MapSeq(layout, ScreenOf) == sorted;
    }

    /** The grid `generate_screen_heatmap` accumulates before smoothing: `None` when there
        are no clicks or none on this screen, otherwise each cell's total of clicks. */
    method ScreenGrid(screen: Screen) returns (grid: Option<array2<int>>)
      requires screen.geometry.width >= 0 && screen.geometry.height >= 0
      ensures grid.None? <==> forall p :: p in data ==> !InScreen(screen.geometry, p)
      ensures grid.Some? ==>
        grid.value.Length0 == GridHeight(screen.geometry) && grid.value.Length1 == GridWidth(screen.geometry)
      ensures grid.Some? ==> forall r, c :: 0 <= r < grid.value.Length0 && 0 <= c < grid.value.Length1 ==>
        grid.value[r, c] == CellTotal(data, screen.geometry, (r, c))
    {
      var g := screen.geometry;
      if data == map[] {
        return None;
      }
      var gridW, gridH := GridWidth(g), GridHeight(g);
      var cells := new int[gridH, gridW]((r, c) => 0);
      var hasData := Accumulate(data, g, cells);
      if !hasData {
        return None;
      }
      grid := Some(cells);
    }
  }

  /** The loop of `generate_screen_heatmap` over the clicks: each click on the screen
      is added to its cell, and `has_data` records that one was. */
  method Accumulate(data: map<(int, int), int>, g: Rect, cells: array2<int>) returns (hasData: bool)
    requires cells.Length0 == GridHeight(g) && cells.Length1 == GridWidth(g)
    requires forall r, c :: 0 <= r < cells.Length0 && 0 <= c < cells.Length1 ==> cells[r, c] == 0
    modifies cells
    ensures hasData <==> exists q :: q in data && InScreen(g, q)
    ensures forall r, c :: 0 <= r < cells.Length0 && 0 <= c < cells.Length1 ==> cells[r, c] == CellTotal(data, g, (r, c))
  {
    var gridH, gridW := cells.Length0, cells.Length1;
    hasData := false;
    var todo := data.Keys;
    ghost var seen: map<(int, int), int> := map[];
    forall cell ensures CellTotal(seen, g, cell) == 0 {
      assert Points(seen, g, cell) == map[];
    }
    while todo != {}
      invariant todo <= data.Keys
      invariant forall q :: q in seen <==> q in data && q !in todo
      invariant forall q :: q in seen ==> seen[q] == data[q]
      invariant hasData <==> exists q :: q in seen && InScreen(g, q)
      invariant forall r, c :: 0 <= r < gridH && 0 <= c < gridW ==> cells[r, c] == CellTotal(seen, g, (r, c))
      decreases todo
    {
      var p :| p in todo;
      var added := AddClick(cells, g, seen, p, data[p]);
      hasData := hasData || added;
      seen := seen[p := data[p]];
      todo := todo - {p};
    }
    assert seen == data;
  }

  /** One pass of the loop body: a click on the screen is added to its cell, and reported. */
  method AddClick(cells: array2<int>, g: Rect, ghost seen: map<(int, int), int>, p: (int, int), count: int)
    returns (added: bool)
    requires cells.Length0 == GridHeight(g) && cells.Length1 == GridWidth(g) && p !in seen
    requires forall r, c :: 0 <= r < cells.Length0 && 0 <= c < cells.Length1 ==> cells[r, c] == CellTotal(seen, g, (r, c))
    modifies cells
    ensures added <==> InScreen(g, p)
    ensures forall r, c :: 0 <= r < cells.Length0 && 0 <= c < cells.Length1 ==>
      cells[r, c] == CellTotal(seen[p := count], g, (r, c))
  {
    added := false;
    if InScreen(g, p) {
      CellInRange(g, p);
      var gx, gy := (p.0 - g.x) / 4, (p.1 - g.y) / 4;
      if 0 <= gx < cells.Length1 && 0 <= gy < cells.Length0 {
        AddToCell(cells, gy, gx, count);
        added := true;
      }
    }
    forall r, c | 0 <= r < cells.Length0 && 0 <= c < cells.Length1
      ensures cells[r, c] == CellTotal(seen[p := count], g, (r, c))
    {
      CellTotalAdd(seen, p, count, g, (r, c));
    }
  }

  /** `grid[gy, gx] += count` */
  method AddToCell(cells: array2<int>, gy: int, gx: int, count: int)
    requires 0 <= gy < cells.Length0 && 0 <= gx < cells.Length1
    modifies cells
    ensures forall r, c :: 0 <= r < cells.Length0 && 0 <= c < cells.Length1 ==>
      cells[r, c] == old(cells[r, c]) + (if (r, c) == (gy, gx) then count else 0)
  {
    cells[gy, gx] := cells[gy, gx] + count;
  }
}
