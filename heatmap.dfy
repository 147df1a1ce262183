/**
 * The time-pattern view: the sparse `{hour, day, value}` heatmap points
 * become a zero-filled 24 x 7 grid, the grid's maximum (never below 1)
 * normalises each cell into a colour tier and a text colour, and the
 * hourly and daily averages become chart rows.
 */
module TimePattern {
  import opened Wrappers
  import opened Tiers
  import Text

  const Hours: nat := 24
  const Days: nat := 7

  /** One `HeatmapData` point. */
  datatype Point = Point(hour: int, day: int, value: real)

  predicate Lands(p: Point, h: int, d: int)
  {
    p.hour == h && p.day == d
  }

  /**
   * Every point addresses a cell of the grid. An hour outside 0..23 makes
   * `heatmap[point.hour]` undefined and the assignment throw; a day outside
   * 0..6 would lengthen a row instead of filling a cell.
   */
  predicate InGrid(points: seq<Point>)
  {
    forall i :: 0 <= i < |points| ==> 0 <= points[i].hour < Hours && 0 <= points[i].day < Days
  }

  /** The last of the first `n` points that lands on cell (h, d), or -1 when none does. */
  function LastMatch(points: seq<Point>, n: nat, h: int, d: int): (r: int)
    requires n <= |points|
    ensures -1 <= r < n
    ensures r >= 0 ==> Lands(points[r], h, d)
    ensures forall j :: r < j < n ==> !Lands(points[j], h, d)
  {
    if n == 0 then -1
    else if Lands(points[n - 1], h, d) then n - 1
    else LastMatch(points, n - 1, h, d)
  }

  /** Cell (h, d) once the first `n` points are written: the last one that lands there wins, 0 when none does. */
  function CellAfter(points: seq<Point>, n: nat, h: int, d: int): real
    requires n <= |points|
  {
    var r := LastMatch(points, n, h, d);
    if r < 0 then 0.0 else points[r].value
  }

  /** The heatmap is absent or has no points. */
  predicate NoHeatmap(heatmap: Option<seq<Point>>)
  {
    heatmap.None? || heatmap.value == []
  }

  /** What `getHeatmapData` returns, as rows: `[]`, or 24 rows of 7 cells. */
  function HeatmapRows(heatmap: Option<seq<Point>>): (rows: seq<seq<real>>)
    ensures NoHeatmap(heatmap) ==> rows == []
    ensures !NoHeatmap(heatmap) ==> |rows| == Hours && forall h :: 0 <= h < Hours ==> |rows[h]| == Days
  {
    if NoHeatmap(heatmap) then []
    else
      var points := heatmap.value;
      seq(Hours, h requires 0 <= h < Hours =>
        seq(Days, d requires 0 <= d < Days => CellAfter(points, |points|, h, d)))
  }

  /** The rows of a two-dimensional array. */
  ghost function Rows(grid: array2<real>): seq<seq<real>>
    reads grid
  {
    seq(grid.Length0, h requires 0 <= h < grid.Length0 reads grid =>
      seq(grid.Length1, d requires 0 <= d < grid.Length1 reads grid => grid[h, d]))
  }

  /**
   * `getHeatmapData`: an empty result without points; otherwise a fresh
   * zero-filled 24 x 7 array that each point in turn overwrites at
   * `[hour][day]`.
   */
  method GetHeatmapData(heatmap: Option<seq<Point>>) returns (grid: array2<real>)
    requires heatmap.Some? ==> InGrid(heatmap.value)
    ensures fresh(grid)
    ensures Rows(grid) == HeatmapRows(heatmap)
  {
    if NoHeatmap(heatmap) {
      grid := new real[0, 0];
      assert Rows(grid) == [];
      return;
    }
    var points := heatmap.value;
    grid := new real[Hours, Days]((h, d) => 0.0);
    var i := 0;
    while i < |points|
      invariant 0 <= i <= |points|
      invariant forall h, d :: 0 <= h < Hours && 0 <= d < Days ==> grid[h, d] == CellAfter(points, i, h, d)
    {
      grid[points[i].hour, points[i].day] := points[i].value;
      i := i + 1;
    }
    ghost var spec := HeatmapRows(heatmap);
    forall h | 0 <= h < Hours ensures Rows(grid)[h] == spec[h] {
      assert forall d :: 0 <= d < Days ==> Rows(grid)[h][d] == spec[h][d];
    }
  }

  function Max(a: real, b: real): real
  {
    if a >= b then a else b
  }

  /** `Math.max` of `floor` and the cells of one row. */
  function MaxOfRow(row: seq<real>, floor: real): (m: real)
    ensures m >= floor
    ensures forall d :: 0 <= d < |row| ==> row[d] <= m
    ensures m == floor || exists d :: 0 <= d < |row| && row[d] == m
  {
    if row == [] then floor
    else Max(MaxOfRow(row[..|row| - 1], floor), row[|row| - 1])
  }

  /**
   * `Math.max(...heatmapData.flat(), 1)`: at least 1 and at least every
   * cell, and either 1 or the value of some cell.
   */
  function MaxValue(rows: seq<seq<real>>): (m: real)
    ensures m >= 1.0
    ensures forall h, d :: 0 <= h < |rows| && 0 <= d < |rows[h]| ==> rows[h][d] <= m
    ensures m == 1.0 || exists h, d :: 0 <= h < |rows| && 0 <= d < |rows[h]| && rows[h][d] == m
  {
    if rows == [] then 1.0
    else
      var front := rows[..|rows| - 1];
      var m := MaxOfRow(rows[|rows| - 1], MaxValue(front));
      assert forall h :: 0 <= h < |front| ==> rows[h] == front[h];
      m
  }

  /**
   * `getHeatmapColor`: the tier of `value / maxValue`, stated without the
   * division: high above 0.66 of the maximum, medium above 0.33 of it, low
   * otherwise.
   */
  function HeatmapTier(value: real, maxValue: real): (t: Tier)
    requires maxValue > 0.0
    ensures t == High <==> value > 0.66 * maxValue
    ensures t == Medium <==> 0.33 * maxValue < value <= 0.66 * maxValue
    ensures t == Low <==> value <= 0.33 * maxValue
  {
    ScaledCompare(value, maxValue, 0.66);
    ScaledCompare(value, maxValue, 0.33);
    TierOf(value / maxValue)
  }

  lemma ScaledCompare(value: real, maxValue: real, k: real)
    ensures maxValue > 0.0 ==> (value / maxValue > k <==> value > k * maxValue)
  {
    if maxValue > 0.0 {
      assert value / maxValue * maxValue == value;
    }
  }

  /** `getHeatmapColor`: red above 0.66 of the maximum, amber above 0.33 of it, green otherwise. */
  function HeatmapColor(value: real, maxValue: real): (c: string)
    requires maxValue > 0.0
    ensures c == "#EF4444" <==> value > 0.66 * maxValue
    ensures c == "#F59E0B" <==> 0.33 * maxValue < value <= 0.66 * maxValue
    ensures c == "#10B981" <==> value <= 0.33 * maxValue
  {
    HeatmapTier(value, maxValue).Hex()
  }

  /** A larger cell value never gets a lower tier. */
  lemma HeatmapTierMonotone(a: real, b: real, maxValue: real)
    requires maxValue > 0.0 && a <= b
    ensures HeatmapTier(a, maxValue).Rank() <= HeatmapTier(b, maxValue).Rank()
  {
  }

  /** The cell text is white when the value is above half the maximum, black otherwise: when the cell's intensity is above one half. */
  function WhiteText(value: real, maxValue: real): (white: bool)
    ensures maxValue > 0.0 ==> (white <==> value / maxValue > 0.5)
  {
    ScaledCompare(value, maxValue, 0.5);
    value > maxValue * 0.5
  }

  /** A high-tier cell always has white text, and a white-text cell is never low. */
  lemma TextColourAgreesWithTier(value: real, maxValue: real)
    requires maxValue > 0.0
    ensures HeatmapTier(value, maxValue) == High ==> WhiteText(value, maxValue)
    ensures WhiteText(value, maxValue) ==> HeatmapTier(value, maxValue) != Low
  {
  }

  /**
   * Every painted cell of a grid with points has a tier computed against a
   * positive maximum no cell exceeds, so no cell's intensity is above 1.
   */
  lemma CellsWithinMaximum(heatmap: Option<seq<Point>>, h: nat, d: nat)
    requires !NoHeatmap(heatmap) && h < Hours && d < Days
    ensures MaxValue(HeatmapRows(heatmap)) > 0.0
    ensures HeatmapRows(heatmap)[h][d] / MaxValue(HeatmapRows(heatmap)) <= 1.0
  {
    var rows := HeatmapRows(heatmap);
    var m := MaxValue(rows);
    assert rows[h][d] <= m;
    AtMostOne(rows[h][d], m);
  }

  lemma AtMostOne(x: real, m: real)
    requires m > 0.0 && x <= m
    ensures x / m <= 1.0
  {
    assert x / m * m == x;
  }

  // ---------------------------------------------------------------------------
  // hourlyData and dailyData
  // ---------------------------------------------------------------------------

  /** A row of the hourly chart: the hour, its average, and the label `"<hour>:00"`. */
  datatype HourRow = HourRow(hour: nat, value: real, caption: string)

  /** A row of the daily chart; the label is `undefined` for a day key past 6. */
  datatype DayRow = DayRow(day: nat, value: real, caption: Option<string>)

  const DayNames: seq<string> := ["Sun", "Mon", "Tue", "Wed", "Thu", "Fri", "Sat"]

  /**
   * `hourlyData`: one row per entry of `hourly_averages` in key order (an
   * object with integer keys lists them ascending), or `[]` when the
   * object is missing.
   */
  function HourlyData(averages: Option<seq<(nat, real)>>): (rows: seq<HourRow>)
    ensures averages.None? ==> rows == []
    ensures averages.Some? ==> |rows| == |averages.value|
    ensures averages.Some? ==> forall i :: 0 <= i < |rows| ==>
      rows[i] == HourRow(averages.value[i].0, averages.value[i].1, Text.NatToString(averages.value[i].0) + ":00")
  {
    match averages
    case None => []
    case Some(entries) =>
      seq(|entries|, i requires 0 <= i < |entries| =>
        HourRow(entries[i].0, entries[i].1, Text.NatToString(entries[i].0) + ":00"))
  }

  function DayLabel(day: nat): Option<string>
  {
    if day < |DayNames| then Some(DayNames[day]) else None
  }

  /** `dailyData`: one row per entry of `daily_patterns`, labelled by `['Sun', ..., 'Sat'][day]`. */
  function DailyData(patterns: Option<seq<(nat, real)>>): (rows: seq<DayRow>)
    ensures patterns.None? ==> rows == []
    ensures patterns.Some? ==> |rows| == |patterns.value|
    ensures patterns.Some? ==> forall i :: 0 <= i < |rows| ==>
      rows[i] == DayRow(patterns.value[i].0, patterns.value[i].1, DayLabel(patterns.value[i].0))
  {
    match patterns
    case None => []
    case Some(entries) =>
      seq(|entries|, i requires 0 <= i < |entries| =>
        DayRow(entries[i].0, entries[i].1, DayLabel(entries[i].0)))
  }

  /** Labels run Sunday first: 0 is "Sun", 6 is "Sat", and every key up to 6 has a label of three letters; larger keys have none. */
  lemma DayLabels(day: nat)
    ensures DayLabel(0) == Some("Sun") && DayLabel(6) == Some("Sat")
    ensures day < Days <==> DayLabel(day).Some?
    ensures day < Days ==> |DayLabel(day).value| == 3
  {
  }

  /** An hour label is the hour's decimal digits followed by ":00"; hours below 10 have a single digit. */
  lemma HourLabelShape(hour: nat)
    ensures var s := Text.NatToString(hour) + ":00";
      |s| >= 4 && s[|s| - 3..] == ":00"
      && (hour < 10 ==> |s| == 4)
  {
  }
}
