/**
 Fitting the desks on the office floor: as many columns as keep the desks largest, and a taller floor
 when even the smallest desks do not fit.

 Lengths are CSS pixels as reals; a home is a point in per cent of the floor, as the page stores it.
 */
module DeskGrid {
  const DESK_HEIGHT := 112.0
  const PLATE := 54.0
  const ROW_GAP := 12.0
  const COL_PITCH := 188.0
  const MIN_SCALE := 0.46
  const WALL_RATIO := 0.24
  const FLOOR_MIN_HEIGHT: int := 400
  const DRAFT_LEFT := 73.5
  const SEARCH_STEP := 0.001

  datatype Grid = Grid(columns: int, rows: int, scale: real, left: real, width: real, top: real, pitch: real)

  const FALLBACK := Grid(3, 1, 1.0, 3.0, 68.0, 42.0, 25.0)

  function Max(a: real, b: real): real {
    if a >= b then a else b
  }

  function Min(a: real, b: real): real {
    if a <= b then a else b
  }

  function Ceil(x: real): int {
    -((-x).Floor)
  }

  function CeilDiv(n: nat, d: int): nat
    requires d > 0
  {
    (n + d - 1) / d
  }

  /** Rows wrap only when they are full: as many rows as needed and no more. */
  lemma RowsAreNeeded(n: nat, d: int)
    requires d > 0
    ensures CeilDiv(n, d) * d >= n && (CeilDiv(n, d) - 1) * d < n
  {
    assert n + d - 1 == CeilDiv(n, d) * d + (n + d - 1) % d;
  }

  function GridLeft(width: nat): real {
    width as real * 0.03
  }

  function GridWidth(width: nat): real {
    Max(1.0, width as real * (DRAFT_LEFT / 100.0 - 0.03) - 10.0)
  }

  function Wall(height: int): real {
    height as real * WALL_RATIO + 10.0
  }

  function RowPitch(scale: real): real {
    DESK_HEIGHT * scale + PLATE + ROW_GAP
  }

  function Rows(residents: nat, guests: nat, columns: int): nat
    requires columns > 0
  {
    CeilDiv(residents, columns) + CeilDiv(guests, columns)
  }

  /** The largest scale at which `columns` columns fit; an empty floor is limited by its width alone. */
  function Fit(gridWidth: real, height: int, residents: nat, guests: nat, columns: int): real
    requires columns > 0
  {
    var rows := Rows(residents, guests, columns);
    var byWidth := gridWidth / (columns as real * COL_PITCH);
    if rows == 0 then Min(1.0, byWidth)
    else
      Min(1.0, Min(byWidth, ((height as real - Wall(height) - 18.0) / rows as real - PLATE - ROW_GAP) / DESK_HEIGHT))
  }

  function MaxColumns(gridWidth: real, scale: real): int
    requires scale > 0.0
  {
    var n := (gridWidth / (COL_PITCH * scale)).Floor;
    if n < 1 then 1 else n
  }

  // ----- real arithmetic -----

  lemma BelowQuotient(x: real, a: real, b: real)
    requires b > 0.0
    ensures x <= a / b <==> x * b <= a
  {
    assert a / b * b == a;
    if x <= a / b { Scale(x, a / b, b); } else { ScaleStrict(a / b, x, b); }
  }

  lemma Scale(x: real, y: real, b: real)
    requires x <= y && b >= 0.0
    ensures x * b <= y * b
  {
  }

  lemma ScaleStrict(x: real, y: real, b: real)
    requires x < y && b > 0.0
    ensures x * b < y * b
  {
  }

  /** A scale fits exactly when its desks fit side by side and its rows fit below the wall. */
  lemma FitMeans(gridWidth: real, height: int, residents: nat, guests: nat, columns: int, scale: real)
    requires columns > 0 && height >= FLOOR_MIN_HEIGHT
    ensures scale <= Fit(gridWidth, height, residents, guests, columns) <==>
      && scale <= 1.0 && ColumnsFit(gridWidth, columns, scale)
      && (Rows(residents, guests, columns) > 0 ==> RowsFit(height, Rows(residents, guests, columns), scale))
  {
    var rows := Rows(residents, guests, columns);
    BelowQuotient(scale, gridWidth, columns as real * COL_PITCH);
    assert scale * (columns as real * COL_PITCH) == columns as real * COL_PITCH * scale;
    if rows > 0 {
      var room := height as real - Wall(height) - 18.0;
      BelowQuotient(scale, room / rows as real - PLATE - ROW_GAP, DESK_HEIGHT);
      BelowQuotient(RowPitch(scale), room, rows as real);
    }
  }

  predicate ColumnsFit(gridWidth: real, columns: int, scale: real) {
    columns as real * COL_PITCH * scale <= gridWidth
  }

  predicate RowsFit(height: int, rows: nat, scale: real) {
    Wall(height) + RowPitch(scale) * rows as real + 18.0 <= height as real
  }

  // ----- the search -----

  /** Tries every column count the width could hold and keeps the one with the largest desks. */
  method Search(gridWidth: real, height: int, residents: nat, guests: nat) returns (columns: int, scale: real)
    ensures 1 <= columns <= MaxColumns(gridWidth, MIN_SCALE)
    ensures scale >= 0.0 && (scale > 0.0 ==> scale == Fit(gridWidth, height, residents, guests, columns))
    ensures forall c | 1 <= c <= MaxColumns(gridWidth, MIN_SCALE) ::
      Fit(gridWidth, height, residents, guests, c) <= scale + SEARCH_STEP
  {
    columns, scale := 1, 0.0;
    var candidate := 1;
    while candidate <= MaxColumns(gridWidth, MIN_SCALE)
      invariant 1 <= candidate <= MaxColumns(gridWidth, MIN_SCALE) + 1
      invariant 1 <= columns <= MaxColumns(gridWidth, MIN_SCALE)
      invariant scale >= 0.0 && (scale > 0.0 ==> scale == Fit(gridWidth, height, residents, guests, columns))
      invariant forall c | 1 <= c < candidate :: Fit(gridWidth, height, residents, guests, c) <= scale + SEARCH_STEP
    {
      var fit := Fit(gridWidth, height, residents, guests, candidate);
      if fit > scale + SEARCH_STEP { scale, columns := fit, candidate; }
      candidate := candidate + 1;
    }
  }

  /** Column counts beyond the searched ones need desks below the minimum. */
  lemma WiderIsTooSmall(gridWidth: real, height: int, residents: nat, guests: nat, c: int)
    requires c > MaxColumns(gridWidth, MIN_SCALE)
    ensures Fit(gridWidth, height, residents, guests, c) < MIN_SCALE
  {
    var q := gridWidth / (COL_PITCH * MIN_SCALE);
    assert q < c as real;
    BelowQuotient(c as real, gridWidth, COL_PITCH * MIN_SCALE);
    BelowQuotient(MIN_SCALE, gridWidth, c as real * COL_PITCH);
    assert MIN_SCALE * (c as real * COL_PITCH) == c as real * (COL_PITCH * MIN_SCALE);
  }

  /** The floor as it was laid out: its measured width, its height, and who sits on it. */
  datatype Layout = Layout(width: nat, height: int, residents: nat, guests: nat, grid: Grid)

  /** Rows fit below the wall; columns fit unless a single one is forced at the minimum scale. */
  predicate Fits(o: Layout) {
    && o.width > 0 && o.grid.columns >= 1
    && o.grid.rows == Rows(o.residents, o.guests, o.grid.columns)
    && MIN_SCALE <= o.grid.scale <= 1.0
    && (o.grid.rows > 0 ==> RowsFit(o.height, o.grid.rows, o.grid.scale))
    && (ColumnsFit(GridWidth(o.width), o.grid.columns, o.grid.scale) || (o.grid.columns == 1 && o.grid.scale == MIN_SCALE))
  }

  /** The published percentages say where the grid is. */
  predicate Published(o: Layout) {
    && o.width > 0 && o.height > 0
    && o.grid.left == Percent(GridLeft(o.width), o.width as real)
    && o.grid.width == Percent(GridWidth(o.width), o.width as real)
    && o.grid.top == Percent(FirstRow(o), o.height as real)
    && o.grid.pitch == Percent(RowPitch(o.grid.scale), o.height as real)
  }

  /** No column count has desks that are readable and more than a thousandth larger. */
  ghost predicate NearlyBest(width: nat, height: int, residents: nat, guests: nat, scale: real) {
    forall c: int | c >= 1 ::
      var fit := Fit(GridWidth(width), height, residents, guests, c);
      fit < MIN_SCALE || fit <= scale + SEARCH_STEP
  }

  function FloorHeight(viewportHeight: int): int {
    if viewportHeight - 16 > FLOOR_MIN_HEIGHT then viewportHeight - 16 else FLOOR_MIN_HEIGHT
  }

  function GrownHeight(rows: nat): int {
    Ceil((rows as real * RowPitch(MIN_SCALE) + 28.0) / (1.0 - WALL_RATIO))
  }

  lemma CeilMeans(x: real, n: int)
    ensures Ceil(x) as real >= x
    ensures n < Ceil(x) <==> n as real < x
  {
    var f := (-x).Floor;
    assert f as real <= -x < f as real + 1.0;
    if n < Ceil(x) { assert n <= -f - 1; }
  }

  /** The grown floor holds its rows; it is taller than before exactly when they did not fit at the minimum. */
  lemma GrownFits(rows: nat, height: int)
    ensures RowsFit(GrownHeight(rows), rows, MIN_SCALE)
    ensures height < GrownHeight(rows) <==> !RowsFit(height, rows, MIN_SCALE)
  {
    var need := rows as real * RowPitch(MIN_SCALE) + 28.0;
    var grown := GrownHeight(rows);
    CeilMeans(need / (1.0 - WALL_RATIO), grown);
    CeilMeans(need / (1.0 - WALL_RATIO), height);
    assert need / (1.0 - WALL_RATIO) * (1.0 - WALL_RATIO) == need;
    assert grown as real * (1.0 - WALL_RATIO) >= need;
    assert height as real < need / (1.0 - WALL_RATIO) <==> height as real * (1.0 - WALL_RATIO) < need;
  }

  lemma ColumnsForScale(gridWidth: real)
    requires gridWidth >= 1.0
    ensures var c := MaxColumns(gridWidth, MIN_SCALE);
            c >= 1 && (ColumnsFit(gridWidth, c, MIN_SCALE) || c == 1)
  {
    var n := (gridWidth / (COL_PITCH * MIN_SCALE)).Floor;
    if n >= 1 {
      assert n as real <= gridWidth / (COL_PITCH * MIN_SCALE);
      BelowQuotient(n as real, gridWidth, COL_PITCH * MIN_SCALE);
      assert n as real * (COL_PITCH * MIN_SCALE) == n as real * COL_PITCH * MIN_SCALE;
    }
  }

  // ----- the page's floor -----

  class Office {
    var grid: Grid
    var height: int

    constructor ()
      ensures grid == FALLBACK
    {
      grid, height := FALLBACK, FLOOR_MIN_HEIGHT;
    }

    /** Lays the floor out anew; a hidden floor measures 0 and keeps the grid it had. */
    method UpdateCapacity(width: nat, viewportHeight: int, residents: nat, guests: nat)
      modifies this
      ensures width == 0 ==> grid == old(grid)
      ensures width == 0 || grid.scale > MIN_SCALE ==> height == if viewportHeight > 416 then viewportHeight - 16 else 400
      ensures width > 0 ==>
        var o := Layout(width, height, residents, guests, grid);
        && Fits(o) && Published(o)
        && NearlyBest(width, FloorHeight(viewportHeight), residents, guests, grid.scale)
        && (grid.scale > MIN_SCALE ==> height == FloorHeight(viewportHeight))
        && (height != FloorHeight(viewportHeight) ==>
              (height > FloorHeight(viewportHeight) <==> !RowsFit(FloorHeight(viewportHeight), grid.rows, MIN_SCALE)))
    {
      height := FloorHeight(viewportHeight);
      if width == 0 { return; }
      var gridWidth := GridWidth(width);
      var columns, scale := Search(gridWidth, height, residents, guests);
      ghost var before := height;
      if scale < MIN_SCALE {
        ColumnsForScale(gridWidth);
        scale := MIN_SCALE;
        columns := MaxColumns(gridWidth, scale);
        height := GrownHeight(Rows(residents, guests, columns));
        GrownFits(Rows(residents, guests, columns), before);
      } else {
        FitMeans(gridWidth, height, residents, guests, columns, scale);
      }
      forall c: int | c >= 1
        ensures var fit := Fit(gridWidth, before, residents, guests, c); fit < MIN_SCALE || fit <= scale + SEARCH_STEP
      {
        if c > MaxColumns(gridWidth, MIN_SCALE) { WiderIsTooSmall(gridWidth, before, residents, guests, c); }
      }
      HeightIsPositive(height, Rows(residents, guests, columns), scale);
      grid := Grid(
        columns, Rows(residents, guests, columns), scale,
        Percent(GridLeft(width), width as real),
        Percent(gridWidth, width as real),
        Percent(Wall(height) + RowPitch(scale) / 2.0, height as real),
        Percent(RowPitch(scale), height as real));
    }
  }

  lemma HeightIsPositive(height: int, rows: nat, scale: real)
    requires height >= FLOOR_MIN_HEIGHT || (RowsFit(height, rows, scale) && scale >= MIN_SCALE)
    ensures height > 0
  {
    if height < FLOOR_MIN_HEIGHT {
      assert RowPitch(scale) * rows as real >= 0.0;
      assert height as real * (1.0 - WALL_RATIO) >= 28.0;
    }
  }

  // ----- homes -----

  datatype Point = Point(x: real, y: real)

  /** A seat by its group and its place in it: residents first, then guests, each wrapping by itself. */
  datatype Seat = Resident(index: nat) | Guest(index: nat)

  predicate Sits(o: Layout, s: Seat) {
    match s
    case Resident(i) => i < o.residents
    case Guest(i) => i < o.guests
  }

  function Row(o: Layout, s: Seat): nat
    requires o.grid.columns > 0
  {
    match s
    case Resident(i) => i / o.grid.columns
    case Guest(i) => CeilDiv(o.residents, o.grid.columns) + i / o.grid.columns
  }

  function Column(o: Layout, s: Seat): nat
    requires o.grid.columns > 0
  {
    s.index % o.grid.columns
  }

  /** How many seats share the row of a seat. */
  function InRow(o: Layout, s: Seat): int
    requires o.grid.columns > 0
  {
    var size := if s.Resident? then o.residents else o.guests;
    var left := size - s.index / o.grid.columns * o.grid.columns;
    if left < o.grid.columns then left else o.grid.columns
  }

  function Home(o: Layout, s: Seat): Point
    requires o.grid.columns > 0 && Sits(o, s)
  {
    InRowIsPositive(o, s);
    Point(Along(o.grid.left, Share(Column(o, s), InRow(o, s)), o.grid.width),
          Along(o.grid.top, Row(o, s) as real, o.grid.pitch))
  }

  /** `k` lengths from a starting point. */
  function Along(from: real, k: real, length: real): real {
    from + k * length
  }

  /** The middle of a column, as a share of its row. */
  function Share(column: nat, inRow: int): real
    requires inRow > 0
  {
    (column as real + 0.5) / inRow as real
  }

  lemma InRowIsPositive(o: Layout, s: Seat)
    requires o.grid.columns > 0 && Sits(o, s)
    ensures 1 <= InRow(o, s) <= o.grid.columns && Column(o, s) < InRow(o, s)
  {
    var c := o.grid.columns;
    assert s.index == s.index / c * c + s.index % c;
  }

  function Pixels(o: Layout, p: Point): Point {
    Point(Px(p.x, o.width as real), Px(p.y, o.height as real))
  }

  function Distance(a: real, b: real): real {
    if a >= b then a - b else b - a
  }

  /** Where a seat is in pixels: column and row times the two pitches, from the grid's corner. */
  function HomePx(o: Layout, s: Seat): Point
    requires o.grid.columns > 0 && Sits(o, s)
  {
    InRowIsPositive(o, s);
    Point(Along(GridLeft(o.width), Share(Column(o, s), InRow(o, s)), GridWidth(o.width)),
          Along(FirstRow(o), Row(o, s) as real, RowPitch(o.grid.scale)))
  }

  /** The middle of the first row of desks. */
  function FirstRow(o: Layout): real {
    Wall(o.height) + RowPitch(o.grid.scale) / 2.0
  }

  function Percent(length: real, size: real): real
    requires size > 0.0
  {
    length / size * 100.0
  }

  function Px(percent: real, size: real): real {
    percent / 100.0 * size
  }

  lemma HomeInPixels(o: Layout, s: Seat)
    requires Published(o) && o.grid.columns > 0 && Sits(o, s)
    ensures Pixels(o, Home(o, s)) == HomePx(o, s)
  {
    InRowIsPositive(o, s);
    PercentToPixels(GridLeft(o.width), GridWidth(o.width), Share(Column(o, s), InRow(o, s)), o.width as real);
    PercentToPixels(FirstRow(o), RowPitch(o.grid.scale), Row(o, s) as real, o.height as real);
  }

  lemma PercentToPixels(a: real, b: real, k: real, size: real)
    requires size > 0.0
    ensures Px(Along(Percent(a, size), k, Percent(b, size)), size) == Along(a, k, b)
  {
    var p, q := a / size, b / size;
    assert p * size == a && q * size == b;
    assert (p * 100.0 + k * (q * 100.0)) / 100.0 == p + k * q;
    assert (p + k * q) * size == p * size + k * (q * size);
  }

  lemma SameRow(o: Layout, s: Seat, t: Seat)
    requires o.grid.columns > 0 && Sits(o, s) && Sits(o, t) && s != t && Row(o, s) == Row(o, t)
    ensures InRow(o, s) == InRow(o, t) && Column(o, s) != Column(o, t)
  {
    var c := o.grid.columns;
    RowsSeparateGroups(o, s);
    RowsSeparateGroups(o, t);
    assert s.index == s.index / c * c + s.index % c;
    assert t.index == t.index / c * c + t.index % c;
  }

  /** Residents and guests never share a row, and every row is one of the counted ones. */
  lemma RowsSeparateGroups(o: Layout, s: Seat)
    requires o.grid.columns > 0 && Sits(o, s)
    ensures s.Resident? <==> Row(o, s) < CeilDiv(o.residents, o.grid.columns)
    ensures Row(o, s) < Rows(o.residents, o.guests, o.grid.columns)
  {
    QuotientBelowCeil(s.index, if s.Resident? then o.residents else o.guests, o.grid.columns);
  }

  lemma QuotientBelowCeil(i: nat, n: nat, c: int)
    requires c > 0 && i < n
    ensures i / c < CeilDiv(n, c)
  {
    var q := CeilDiv(n, c);
    assert n + c - 1 == q * c + (n + c - 1) % c;
    assert i == i / c * c + i % c;
    if i / c >= q { Multiples(q, i / c, c); }
  }

  lemma Multiples(a: int, b: int, c: int)
    requires a <= b && c >= 0
    ensures a * c <= b * c
  {
  }

  lemma Spread(a: real, b: real, from: real, unit: real)
    requires Distance(a, b) >= 1.0 && unit >= 0.0
    ensures Distance(Along(from, a, unit), Along(from, b, unit)) >= unit
  {
    if a >= b {
      Scale(1.0, a - b, unit);
      assert (a - b) * unit == a * unit - b * unit;
    } else {
      Scale(1.0, b - a, unit);
      assert (b - a) * unit == b * unit - a * unit;
    }
  }

  lemma SharesApart(a: nat, b: nat, from: real, inRow: int, width: real, pitch: real, columns: int)
    requires a != b && 1 <= inRow <= columns && width >= 0.0 && pitch >= 0.0 && columns as real * pitch <= width
    ensures Distance(Along(from, Share(a, inRow), width), Along(from, Share(b, inRow), width)) >= pitch
  {
    var unit := width / inRow as real;
    assert Along(from, Share(a, inRow), width) == Along(from, a as real + 0.5, unit);
    assert Along(from, Share(b, inRow), width) == Along(from, b as real + 0.5, unit);
    Scale(inRow as real, columns as real, pitch);
    BelowQuotient(pitch, width, inRow as real);
    Spread(a as real + 0.5, b as real + 0.5, from, unit);
  }

  lemma SameRowApart(o: Layout, s: Seat, t: Seat)
    requires o.grid.columns > 0 && o.grid.scale >= 0.0 && ColumnsFit(GridWidth(o.width), o.grid.columns, o.grid.scale)
    requires Sits(o, s) && Sits(o, t) && s != t && Row(o, s) == Row(o, t)
    ensures Distance(HomePx(o, s).x, HomePx(o, t).x) >= COL_PITCH * o.grid.scale
  {
    SameRow(o, s, t);
    InRowIsPositive(o, s);
    var columns := o.grid.columns as real;
    assert columns * COL_PITCH * o.grid.scale == columns * (COL_PITCH * o.grid.scale);
    SharesApart(Column(o, s), Column(o, t), GridLeft(o.width), InRow(o, s), GridWidth(o.width),
                COL_PITCH * o.grid.scale, o.grid.columns);
  }

  lemma RowsApart(o: Layout, s: Seat, t: Seat)
    requires o.grid.columns > 0 && o.grid.scale >= 0.0 && Sits(o, s) && Sits(o, t) && Row(o, s) != Row(o, t)
    ensures Distance(HomePx(o, s).y, HomePx(o, t).y) >= RowPitch(o.grid.scale)
  {
    Spread(Row(o, s) as real, Row(o, t) as real, FirstRow(o), RowPitch(o.grid.scale));
  }

  /** Two seats can only share a row where there is more than one column. */
  lemma SharingNeedsColumns(o: Layout, s: Seat, t: Seat)
    requires o.grid.columns > 0 && Sits(o, s) && Sits(o, t) && s != t && Row(o, s) == Row(o, t)
    ensures o.grid.columns > 1
  {
    SameRow(o, s, t);
    InRowIsPositive(o, s);
    InRowIsPositive(o, t);
  }

  /** Any two homes are a whole desk apart: one column pitch across, or one row pitch down. */
  lemma HomesApart(o: Layout, s: Seat, t: Seat)
    requires o.grid.columns > 0 && Sits(o, s) && Sits(o, t) && s != t
    ensures Fits(o) && Published(o) ==>
      var a, b := Pixels(o, Home(o, s)), Pixels(o, Home(o, t));
      Distance(a.x, b.x) >= COL_PITCH * o.grid.scale || Distance(a.y, b.y) >= RowPitch(o.grid.scale)
  {
    if Fits(o) && Published(o) {
      HomeInPixels(o, s);
      HomeInPixels(o, t);
      if Row(o, s) == Row(o, t) {
        SharingNeedsColumns(o, s, t);
        SameRowApart(o, s, t);
      } else {
        RowsApart(o, s, t);
      }
    }
  }

  lemma RowInside(from: real, row: nat, rows: nat, pitch: real)
    requires row < rows && pitch >= 0.0
    ensures from <= Along(from, row as real, pitch) && Along(from, row as real, pitch) + pitch <= from + pitch * rows as real
  {
    Scale(row as real + 1.0, rows as real, pitch);
    Scale(0.0, row as real, pitch);
  }

  lemma HomePxInside(o: Layout, s: Seat)
    requires o.grid.columns > 0 && o.grid.scale >= 0.0 && Sits(o, s)
    requires o.grid.rows == Rows(o.residents, o.guests, o.grid.columns) && RowsFit(o.height, o.grid.rows, o.grid.scale)
    ensures Wall(o.height) <= HomePx(o, s).y - RowPitch(o.grid.scale) / 2.0
    ensures HomePx(o, s).y + RowPitch(o.grid.scale) / 2.0 + 18.0 <= o.height as real
  {
    RowsSeparateGroups(o, s);
    RowInside(FirstRow(o), Row(o, s), o.grid.rows, RowPitch(o.grid.scale));
  }

  /** The middle of a column lies half a column or more from either end of the row. */
  lemma ShareInside(column: nat, inRow: int, from: real, width: real)
    requires column < inRow && width >= 0.0
    ensures var x, half := Along(from, Share(column, inRow), width), width / inRow as real / 2.0;
            half >= 0.0 && from + half <= x && x + half <= from + width
  {
    var unit := width / inRow as real;
    BelowQuotient(0.0, width, inRow as real);
    assert unit * inRow as real == width;
    assert Share(column, inRow) * width == (column as real + 0.5) * unit;
    Scale(0.5, column as real + 0.5, unit);
    Scale(column as real + 0.5, inRow as real - 0.5, unit);
    assert (inRow as real - 0.5) * unit == width - unit / 2.0;
  }

  /** Each desk of a row has at least its pitch of width, where the columns fit. */
  lemma WideEnough(inRow: int, columns: int, pitch: real, width: real)
    requires 1 <= inRow <= columns && pitch >= 0.0 && columns as real * pitch <= width
    ensures pitch <= width / inRow as real
  {
    Scale(inRow as real, columns as real, pitch);
    BelowQuotient(pitch, width, inRow as real);
  }

  lemma HomePxAcross(o: Layout, s: Seat)
    requires o.grid.columns > 0 && o.grid.scale >= 0.0 && Sits(o, s)
    ensures GridLeft(o.width) <= HomePx(o, s).x <= GridLeft(o.width) + GridWidth(o.width)
    ensures ColumnsFit(GridWidth(o.width), o.grid.columns, o.grid.scale) ==>
      var half := COL_PITCH * o.grid.scale / 2.0;
      GridLeft(o.width) + half <= HomePx(o, s).x && HomePx(o, s).x + half <= GridLeft(o.width) + GridWidth(o.width)
  {
    InRowIsPositive(o, s);
    ShareInside(Column(o, s), InRow(o, s), GridLeft(o.width), GridWidth(o.width));
    if ColumnsFit(GridWidth(o.width), o.grid.columns, o.grid.scale) {
      var columns := o.grid.columns as real;
      assert columns * COL_PITCH * o.grid.scale == columns * (COL_PITCH * o.grid.scale);
      WideEnough(InRow(o, s), o.grid.columns, COL_PITCH * o.grid.scale, GridWidth(o.width));
    }
  }

  /**
   Every desk stands below the wall, above the floor's lower edge, and between the left margin and the
   draft room: whole, where the columns fit, and otherwise with its middle.
   */
  lemma HomesInside(o: Layout, s: Seat)
    requires o.grid.columns > 0 && Sits(o, s)
    ensures Fits(o) && Published(o) ==>
      var at := Pixels(o, Home(o, s));
      && Wall(o.height) <= at.y - RowPitch(o.grid.scale) / 2.0
      && at.y + RowPitch(o.grid.scale) / 2.0 + 18.0 <= o.height as real
    ensures Fits(o) && Published(o) ==>
      var at, left, right := Pixels(o, Home(o, s)), o.width as real * 0.03, o.width as real * 0.735 - 10.0;
      var half := 94.0 * o.grid.scale;
      && left <= at.x <= Max(left + 1.0, right)
      && (o.grid.columns as real * 188.0 * o.grid.scale <= right - left ==> left + half <= at.x && at.x + half <= right)
  {
    if Fits(o) && Published(o) {
      HomeInPixels(o, s);
      RowsSeparateGroups(o, s);
      HomePxInside(o, s);
      HomePxAcross(o, s);
      HomeAcross(o, HomePx(o, s).x);
    }
  }

  lemma HomeAcross(o: Layout, x: real)
    requires o.grid.columns > 0 && o.grid.scale >= 0.0
    requires GridLeft(o.width) <= x <= GridLeft(o.width) + GridWidth(o.width)
    requires ColumnsFit(GridWidth(o.width), o.grid.columns, o.grid.scale) ==>
      var half := COL_PITCH * o.grid.scale / 2.0;
      GridLeft(o.width) + half <= x && x + half <= GridLeft(o.width) + GridWidth(o.width)
    ensures var left, right := o.width as real * 0.03, o.width as real * 0.735 - 10.0;
            var half := 94.0 * o.grid.scale;
            && left <= x <= Max(left + 1.0, right)
            && (o.grid.columns as real * 188.0 * o.grid.scale <= right - left && right - left >= 1.0 ==>
                  left + half <= x && x + half <= right)
  {
  }

  /** Which of two seats comes first: residents before guests, each group in its own order. */
  predicate Before(s: Seat, t: Seat) {
    if s.Resident? != t.Resident? then s.Resident? else s.index < t.index
  }

  lemma QuotientInOrder(i: nat, j: nat, c: int)
    requires i < j && c > 0
    ensures i / c <= j / c
    ensures i / c == j / c ==> i % c < j % c
  {
    assert i == i / c * c + i % c && j == j / c * c + j % c;
    if i / c > j / c { Multiples(j / c + 1, i / c, c); }
  }

  lemma GroupInOrder(o: Layout, s: Seat, t: Seat)
    requires o.grid.columns > 0 && s.Resident? == t.Resident? && s.index < t.index
    ensures Row(o, s) <= Row(o, t)
    ensures Row(o, s) == Row(o, t) ==> Column(o, s) < Column(o, t) && s.index / o.grid.columns == t.index / o.grid.columns
  {
    QuotientInOrder(s.index, t.index, o.grid.columns);
  }

  lemma SameRowSize(o: Layout, s: Seat, t: Seat)
    requires o.grid.columns > 0 && s.Resident? == t.Resident? && s.index / o.grid.columns == t.index / o.grid.columns
    ensures InRow(o, s) == InRow(o, t)
  {
  }

  lemma SeatsInOrder(o: Layout, s: Seat, t: Seat)
    requires o.grid.columns > 0 && Sits(o, s) && Sits(o, t) && Before(s, t)
    ensures Row(o, s) < Row(o, t) || (Row(o, s) == Row(o, t) && Column(o, s) < Column(o, t) && InRow(o, s) == InRow(o, t))
  {
    if s.Resident? == t.Resident? {
      GroupInOrder(o, s, t);
      if Row(o, s) == Row(o, t) { SameRowSize(o, s, t); }
    } else {
      RowsSeparateGroups(o, s);
      RowsSeparateGroups(o, t);
    }
  }

  lemma AlongInOrder(from: real, a: real, b: real, unit: real)
    requires a < b && unit > 0.0
    ensures Along(from, a, unit) < Along(from, b, unit)
  {
    ScaleStrict(a, b, unit);
  }

  lemma SharesInOrder(a: nat, b: nat, inRow: int, from: real, width: real)
    requires a < b && inRow > 0 && width > 0.0
    ensures Along(from, Share(a, inRow), width) < Along(from, Share(b, inRow), width)
  {
    var n := inRow as real;
    assert Share(a, inRow) < Share(b, inRow) by {
      assert Share(a, inRow) * n == a as real + 0.5 && Share(b, inRow) * n == b as real + 0.5;
      if Share(a, inRow) >= Share(b, inRow) { Scale(Share(b, inRow), Share(a, inRow), n); }
    }
    AlongInOrder(from, Share(a, inRow), Share(b, inRow), width);
  }

  /** The floor reads like a page: an earlier seat is further up, or in the same row further left. */
  lemma HomesInReadingOrder(o: Layout, s: Seat, t: Seat)
    requires o.grid.columns > 0 && Sits(o, s) && Sits(o, t) && Before(s, t)
    ensures Fits(o) && Published(o) ==>
      var a, b := Pixels(o, Home(o, s)), Pixels(o, Home(o, t));
      a.y < b.y || (a.y == b.y && a.x < b.x)
  {
    if Fits(o) && Published(o) {
      HomeInPixels(o, s);
      HomeInPixels(o, t);
      SeatsInOrder(o, s, t);
      InRowIsPositive(o, s);
      if Row(o, s) < Row(o, t) {
        AlongInOrder(FirstRow(o), Row(o, s) as real, Row(o, t) as real, RowPitch(o.grid.scale));
      } else {
        SharesInOrder(Column(o, s), Column(o, t), InRow(o, s), GridLeft(o.width), GridWidth(o.width));
      }
    }
  }

  /** A floor 100 pixels wide: its one desk is forced to the minimum, and the floor shrinks below 400. */
  lemma NarrowFloorShrinks(height: int)
    requires height >= FLOOR_MIN_HEIGHT
    ensures forall c | 1 <= c <= MaxColumns(GridWidth(100), MIN_SCALE) :: Fit(GridWidth(100), height, 1, 0, c) < MIN_SCALE
    ensures GrownHeight(Rows(1, 0, MaxColumns(GridWidth(100), MIN_SCALE))) == 192
  {
    assert GridWidth(100) == 60.5;
    assert MaxColumns(60.5, MIN_SCALE) == 1;
    FitMeans(60.5, height, 1, 0, 1, MIN_SCALE);
    assert Rows(1, 0, 1) == 1 && RowPitch(MIN_SCALE) == 117.52;
    CeilMeans(145.52 / 0.76, 191);
    CeilMeans(145.52 / 0.76, 192);
  }
}
