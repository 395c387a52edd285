/**
 * The collector's heatmap aggregation (`buildHeatmap`): choose the dominant
 * viewport bucket, bin every row with coordinates into an N x N grid over that
 * viewport, and emit one point per non-empty cell at the cell's centre.
 */
module Heatmap {
  import opened Wrappers
  import opened Json
  import opened Text
  import opened SdkHelpers
  import opened Store
  import opened Counts

  datatype Dims = Dims(w: real, h: real)

  const DEFAULT_VIEWPORT := Dims(1280.0, 720.0)

  /** `parseViewportBucket`: "WxH" with both parts non-zero numbers. */
  function ParseViewportBucket(bucket: Option<string>): (r: Option<Dims>)
    ensures r.Some? ==> r.value.w != 0.0 && r.value.h != 0.0
    ensures bucket.None? || bucket.value == "" ==> r.None?
  {
    if bucket.None? || bucket.value == "" then None
    else
      var parts := Split(bucket.value, 'x');
      var w := NumberOf(parts[0]);
      var h := if |parts| > 1 then NumberOf(parts[1]) else None;
      if w.None? || w.value == 0.0 || h.None? || h.value == 0.0 then None
      else Some(Dims(w.value, h.value))
  }

  /** The SDK's bucket label parses back to the rounded viewport whenever both sides round to a non-zero size. */
  lemma ParseFormatsBack(w: real, h: real)
    requires RoundToHundred(w) != 0 && RoundToHundred(h) != 0
    ensures ParseViewportBucket(Some(ViewportBucket(w, h))) == Some(Dims(RoundToHundred(w) as real, RoundToHundred(h) as real))
  {
    IntToStringRoundTrip(RoundToHundred(w));
    IntToStringRoundTrip(RoundToHundred(h));
  }

  /** The text before the first `x`, and the text between it and the next `x` (or the end). */
  function BucketTexts(s: string): (string, string) {
    var k := IndexOf(s, 'x');
    var rest := if k < |s| then s[k + 1..] else "";
    (s[..k], rest[..IndexOf(rest, 'x')])
  }

  /**
   * `parseViewportBucket` read off the text: the width is the number before the
   * first `x`, the height the number after it; the label names a viewport exactly
   * when it has an `x` and both are non-zero numbers.
   */
  lemma ParseViewportBucketSpec(s: string)
    ensures var w := NumberOf(BucketTexts(s).0);
            var h := NumberOf(BucketTexts(s).1);
            var r := ParseViewportBucket(Some(s));
            && (r.Some? <==> s != "" && 'x' in s && w.Some? && w.value != 0.0 && h.Some? && h.value != 0.0)
            && (r.Some? ==> r.value == Dims(w.value, h.value))
  {
    var k := IndexOf(s, 'x');
    SplitHead(s, 'x');
    if k < |s| {
      var rest := s[k + 1..];
      SplitHead(rest, 'x');
      assert Split(s, 'x')[1] == Split(rest, 'x')[0];
    } else {
      assert 'x' !in s by { assert s[..k] == s; }
    }
  }

  /** A zero side, or a label without an `x`, names no viewport. */
  lemma ParseRejectsZero(a: int, b: int, s: string)
    requires 'x' !in s
    ensures ParseViewportBucket(Some(IntToString(0) + "x" + IntToString(b))) == None
    ensures ParseViewportBucket(Some(IntToString(a) + "x" + IntToString(0))) == None
    ensures s != "" ==> ParseViewportBucket(Some(s)) == None
  {
    IntToStringRoundTrip(0);
    IntToStringRoundTrip(a);
    IntToStringRoundTrip(b);
    IntToStringNoX(0);
    IntToStringNoX(a);
    IntToStringNoX(b);
    SplitAt(IntToString(0), 'x', IntToString(b));
    SplitNone(IntToString(b), 'x');
    SplitAt(IntToString(a), 'x', IntToString(0));
    SplitNone(IntToString(0), 'x');
    SplitNone(s, 'x');
  }

  // ---- choosing the viewport ----------------------------------------------------------

  /** `meta?.meta?.viewportBucket || ""`, for string labels. */
  function RowBucket(row: EventRow): string {
    if row.meta.Some? && "viewportBucket" in row.meta.value && row.meta.value["viewportBucket"].JStr?
    then row.meta.value["viewportBucket"].s
    else ""
  }

  /** The first loop: how many rows carry each bucket label, in first-seen order. */
  function CountBuckets(rows: seq<EventRow>): Table<string>
    decreases |rows|
  {
    if |rows| == 0 then []
    else
      var t := CountBuckets(rows[..|rows| - 1]);
      var b := RowBucket(rows[|rows| - 1]);
      if b != "" then Bump(t, b) else t
  }

  /** An explicit bucket wins; otherwise the most frequent one (the earliest among ties). */
  function PreferredBucket(rows: seq<EventRow>, viewportBucket: Option<string>): Option<string> {
    if viewportBucket.Some? && viewportBucket.value != "" then viewportBucket
    else
      var counts := CountBuckets(rows);
      if |counts| == 0 then None else Some(counts[FirstMax(counts)].0)
  }

  function ChosenViewport(preferred: Option<string>): (d: Dims)
    ensures d.w != 0.0 && d.h != 0.0
  {
    ParseViewportBucket(preferred).GetOr(DEFAULT_VIEWPORT)
  }

  /** The label reported in `meta.bucket`: the preferred bucket, else the default viewport's label. */
  function BucketLabel(preferred: Option<string>): string {
    if preferred.Some? && preferred.value != "" then preferred.value else "1280x720"
  }

  // ---- binning -----------------------------------------------------------------------

  /** The position a row is binned at; a scroll row sits at `x = 0` and its depth down the page. */
  function Coords(row: EventRow, vp: Dims): Option<(real, real)> {
    if row.eventType == "scroll" && row.scrollDepth.Some? then
      var pct := row.scrollDepth.value as real / 100.0;
      Some((0.0, Round(pct / 100.0 * vp.h) as real))
    else if row.x.Some? && row.y.Some? then Some((row.x.value as real, row.y.value as real))
    else None
  }

  function Clamp(v: int, n: int): int { Min(n - 1, Max(0, v)) }

  /** The grid: `N` cells per side over the chosen viewport. */
  datatype Grid = Grid(n: int, cellW: real, cellH: real)

  predicate ValidGrid(g: Grid) {
    g.n >= 1 && g.cellW != 0.0 && g.cellH != 0.0
  }

  /** `bucketWidth = viewport.w / N`, `bucketHeight = viewport.h / N`. */
  function GridOf(vp: Dims, n: int): (g: Grid)
    requires n >= 1 && vp.w != 0.0 && vp.h != 0.0
    ensures ValidGrid(g) && g.n == n
    ensures g.cellW * n as real == vp.w && g.cellH * n as real == vp.h
  {
    Grid(n, vp.w / n as real, vp.h / n as real)
  }

  /** `min(N - 1, max(0, floor(c / cellSize)))`. */
  function CellIndex(c: real, cellSize: real, n: int): (i: int)
    requires cellSize != 0.0
    ensures n >= 1 ==> 0 <= i < n
  {
    Clamp((c / cellSize).Floor, n)
  }

  /** The record key `${bx}:${by}`. */
  function CellKey(cx: int, cy: int): string {
    IntToString(cx) + ":" + IntToString(cy)
  }

  /** The key of the cell a position falls in. */
  function CellOf(c: (real, real), g: Grid): string
    requires ValidGrid(g)
  {
    CellKey(CellIndex(c.0, g.cellW, g.n), CellIndex(c.1, g.cellH, g.n))
  }

  /** The second loop: the count of rows in each cell, in first-seen order. */
  function BinRows(rows: seq<EventRow>, vp: Dims, g: Grid): Table<string>
    requires ValidGrid(g)
    decreases |rows|
  {
    if |rows| == 0 then []
    else
      var t := BinRows(rows[..|rows| - 1], vp, g);
      var c := Coords(rows[|rows| - 1], vp);
      if c.None? then t else Bump(t, CellOf(c.value, g))
  }

  datatype HeatPoint = HeatPoint(x: int, y: int, value: nat)

  /** `key.split(":").map(Number)`: the cell indices back from a key. */
  function ParseCellKey(key: string): (real, real) {
    var parts := Split(key, ':');
    (NumberOf(parts[0]).GetOr(0.0), if |parts| > 1 then NumberOf(parts[1]).GetOr(0.0) else 0.0)
  }

  /** The cell's centre, rounded. */
  function Centre(cx: real, cy: real, g: Grid): (int, int) {
    (Round((cx + 0.5) * g.cellW), Round((cy + 0.5) * g.cellH))
  }

  /** The final `map`: each cell as a point at its centre. */
  function PointOf(entry: (string, nat), g: Grid): HeatPoint {
    var (cx, cy) := ParseCellKey(entry.0);
    var (x, y) := Centre(cx, cy, g);
    HeatPoint(x, y, entry.1)
  }

  function Points(t: Table<string>, g: Grid): (ps: seq<HeatPoint>)
    ensures |ps| == |t|
    ensures forall k :: 0 <= k < |t| ==> ps[k] == PointOf(t[k], g)
  {
    if |t| == 0 then []
    else
      var rest := Points(t[1..], g);
      assert forall k :: 1 <= k < |t| ==> t[k] == t[1..][k - 1];
      [PointOf(t[0], g)] + rest
  }

  datatype HeatmapResult = HeatmapResult(points: seq<HeatPoint>, resolution: int, viewport: Dims, total: nat, bucket: string)

  /** `buildHeatmap` for a positive resolution. */
  function HeatmapSpec(rows: seq<EventRow>, n: int, viewportBucket: Option<string>): HeatmapResult
    requires n >= 1
  {
    var preferred := PreferredBucket(rows, viewportBucket);
    var vp := ChosenViewport(preferred);
    var g := GridOf(vp, n);
    HeatmapResult(Points(BinRows(rows, vp, g), g), n, vp, |rows|, BucketLabel(preferred))
  }

  method BuildHeatmap(rows: seq<EventRow>, resolution: int, viewportBucket: Option<string>) returns (r: HeatmapResult)
    requires resolution >= 1
    ensures r == HeatmapSpec(rows, resolution, viewportBucket)
  {
    var bucketCounts := TallyBuckets(rows);
    var preferred := if viewportBucket.Some? && viewportBucket.value != "" then viewportBucket
                     else if |bucketCounts| == 0 then None
                     else Some(bucketCounts[FirstMax(bucketCounts)].0);
    var viewport := ParseViewportBucket(preferred).GetOr(DEFAULT_VIEWPORT);
    var grid := GridOf(viewport, resolution);
    var buckets := BinCells(rows, viewport, grid);
    r := HeatmapResult(Points(buckets, grid), resolution, viewport, |rows|,
                       if preferred.Some? && preferred.value != "" then preferred.value else "1280x720");
  }

  /** The first loop of `buildHeatmap`: count the rows per viewport bucket label. */
  method TallyBuckets(rows: seq<EventRow>) returns (bucketCounts: Table<string>)
    ensures bucketCounts == CountBuckets(rows)
  {
    bucketCounts := [];
    for i := 0 to |rows|
      invariant bucketCounts == CountBuckets(rows[..i])
    {
      assert rows[..i + 1][..i] == rows[..i];
      var bucket := RowBucket(rows[i]);
      if bucket != "" {
        bucketCounts := Bump(bucketCounts, bucket);
      }
    }
    assert rows[..|rows|] == rows;
  }

  /** The second loop of `buildHeatmap`: count the rows per grid cell. */
  method BinCells(rows: seq<EventRow>, viewport: Dims, grid: Grid) returns (buckets: Table<string>)
    requires ValidGrid(grid)
    ensures buckets == BinRows(rows, viewport, grid)
  {
    buckets := [];
    for i := 0 to |rows|
      invariant buckets == BinRows(rows[..i], viewport, grid)
    {
      assert rows[..i + 1][..i] == rows[..i];
      var c := Coords(rows[i], viewport);
      if c.Some? {
        var cx := CellIndex(c.value.0, grid.cellW, grid.n);
        var cy := CellIndex(c.value.1, grid.cellH, grid.n);
        buckets := Bump(buckets, IntToString(cx) + ":" + IntToString(cy));
      }
    }
    assert rows[..|rows|] == rows;
  }

  // ---- properties --------------------------------------------------------------------------

  function WithCoords(rows: seq<EventRow>, vp: Dims): nat
    decreases |rows|
  {
    if |rows| == 0 then 0
    else WithCoords(rows[..|rows| - 1], vp) + (if Coords(rows[|rows| - 1], vp).Some? then 1 else 0)
  }

  /** A row that is binned, and binned into the cell `key`. */
  predicate InCell(row: EventRow, vp: Dims, g: Grid, key: string)
    requires ValidGrid(g)
  {
    Coords(row, vp).Some? && CellOf(Coords(row, vp).value, g) == key
  }

  /** The number of rows that fall in the cell `key`, counted one row at a time. */
  function CellCount(rows: seq<EventRow>, vp: Dims, g: Grid, key: string): nat
    requires ValidGrid(g)
    decreases |rows|
  {
    if |rows| == 0 then 0
    else CellCount(rows[..|rows| - 1], vp, g, key) + (if InCell(rows[|rows| - 1], vp, g, key) then 1 else 0)
  }

  /** The binning table holds, under each cell, exactly the number of rows in it, and lists exactly the non-empty cells. */
  lemma {:induction false} BinRowsCounts(rows: seq<EventRow>, vp: Dims, g: Grid)
    requires ValidGrid(g)
    ensures forall key :: Get(BinRows(rows, vp, g), key) == CellCount(rows, vp, g, key)
    ensures forall key :: HasKey(BinRows(rows, vp, g), key) <==> CellCount(rows, vp, g, key) > 0
    decreases |rows|
  {
    if |rows| > 0 {
      var init := rows[..|rows| - 1];
      BinRowsCounts(init, vp, g);
      var c := Coords(rows[|rows| - 1], vp);
      if c.Some? {
        var t := BinRows(init, vp, g);
        BumpCounts(t, CellOf(c.value, g));
        BumpKeys(t, CellOf(c.value, g));
      }
    }
  }

  /** The number of rows labelled `b`, counted one row at a time. */
  function LabelCount(rows: seq<EventRow>, b: string): nat
    decreases |rows|
  {
    if |rows| == 0 then 0
    else LabelCount(rows[..|rows| - 1], b) + (if RowBucket(rows[|rows| - 1]) == b then 1 else 0)
  }

  /** The index of the first row labelled `b`, or `|rows|` when there is none. */
  function FirstSeen(rows: seq<EventRow>, b: string): (f: nat)
    ensures f <= |rows|
    decreases |rows|
  {
    if |rows| == 0 then 0
    else
      var f := FirstSeen(rows[..|rows| - 1], b);
      if f < |rows| - 1 then f else if RowBucket(rows[|rows| - 1]) == b then |rows| - 1 else |rows|
  }

  lemma {:induction false} FirstSeenCount(rows: seq<EventRow>, b: string)
    ensures FirstSeen(rows, b) < |rows| <==> LabelCount(rows, b) > 0
    decreases |rows|
  {
    if |rows| > 0 {
      FirstSeenCount(rows[..|rows| - 1], b);
    }
  }

  /**
   * The label table holds, under each non-empty label, exactly the number of rows
   * carrying it, and lists exactly the labels that occur.
   */
  lemma {:induction false} CountBucketsSpec(rows: seq<EventRow>)
    ensures var t := CountBuckets(rows);
            && (forall b :: b != "" ==> Get(t, b) == LabelCount(rows, b))
            && (forall b :: HasKey(t, b) <==> b != "" && LabelCount(rows, b) > 0)
    decreases |rows|
  {
    if |rows| > 0 {
      var init := rows[..|rows| - 1];
      var b0 := RowBucket(rows[|rows| - 1]);
      CountBucketsSpec(init);
      if b0 != "" {
        BumpCounts(CountBuckets(init), b0);
        BumpKeys(CountBuckets(init), b0);
      }
    }
  }

  /** Appending a row leaves a label's first occurrence where it was, or puts it at the new row. */
  lemma FirstSeenSnoc(init: seq<EventRow>, row: EventRow, b: string)
    ensures FirstSeen(init, b) < |init| ==> FirstSeen(init + [row], b) == FirstSeen(init, b)
    ensures FirstSeen(init, b) == |init| && RowBucket(row) == b ==> FirstSeen(init + [row], b) == |init|
  {
    assert (init + [row])[..|init|] == init;
  }

  /** Every label of `t` occurs in `rows`, and the labels come in the order of their first occurrence. */
  predicate InFirstSeenOrder(rows: seq<EventRow>, t: Table<string>) {
    && (forall i :: 0 <= i < |t| ==> FirstSeen(rows, t[i].0) < |rows|)
    && (forall i, j :: 0 <= i < j < |t| ==> FirstSeen(rows, t[i].0) < FirstSeen(rows, t[j].0))
  }

  /** The label table lists the labels in the order of their first occurrence. */
  lemma {:induction false} CountBucketsOrder(rows: seq<EventRow>)
    ensures InFirstSeenOrder(rows, CountBuckets(rows))
    decreases |rows|
  {
    if |rows| > 0 {
      var init := rows[..|rows| - 1];
      var last := rows[|rows| - 1];
      assert rows == init + [last];
      var t := CountBuckets(init);
      var b0 := RowBucket(last);
      CountBucketsOrder(init);
      assert b0 != "" ==> HasKey(t, b0) || FirstSeen(init, b0) == |init| by {
        if b0 != "" && FirstSeen(init, b0) < |init| {
          FirstSeenCount(init, b0);
          CountBucketsSpec(init);
        }
      }
      assert CountBuckets(rows) == if b0 != "" then Bump(t, b0) else t;
      OrderStep(init, last, t);
    }
  }

  /** One more row keeps a first-seen-ordered table ordered: old labels keep their place, a new one goes last. */
  lemma OrderStep(init: seq<EventRow>, last: EventRow, t: Table<string>)
    requires InFirstSeenOrder(init, t)
    requires RowBucket(last) != "" ==> HasKey(t, RowBucket(last)) || FirstSeen(init, RowBucket(last)) == |init|
    ensures InFirstSeenOrder(init + [last], if RowBucket(last) != "" then Bump(t, RowBucket(last)) else t)
  {
    var rows := init + [last];
    var b0 := RowBucket(last);
    forall i | 0 <= i < |t| ensures FirstSeen(rows, t[i].0) == FirstSeen(init, t[i].0) {
      FirstSeenSnoc(init, last, t[i].0);
    }
    if b0 != "" {
      var u := Bump(t, b0);
      BumpShape(t, b0);
      if HasKey(t, b0) {
        assert |u| == |t|;
        assert forall i :: 0 <= i < |u| ==> u[i].0 == t[i].0;
      } else {
        FirstSeenSnoc(init, last, b0);
        assert FirstSeen(rows, b0) == |init|;
        assert u[|t|].0 == b0;
        forall i | 0 <= i < |u| ensures FirstSeen(rows, u[i].0) < |rows| {
          if i < |t| {
            assert u[i].0 == t[i].0;
          }
        }
        forall i, j | 0 <= i < j < |u| ensures FirstSeen(rows, u[i].0) < FirstSeen(rows, u[j].0) {
          assert u[i].0 == t[i].0;
          if j < |t| {
            assert u[j].0 == t[j].0;
          }
        }
      }
    }
  }

  /** A cell's key gives back its indices. */
  lemma CellKeyRoundTrip(cx: int, cy: int)
    ensures ParseCellKey(CellKey(cx, cy)) == (cx as real, cy as real)
  {
    IntToStringNoX(cx);
    SplitAt(IntToString(cx), ':', IntToString(cy));
    assert CellKey(cx, cy) == IntToString(cx) + [':'] + IntToString(cy);
    IntToStringNoX(cy);
    SplitNone(IntToString(cy), ':');
    IntToStringRoundTrip(cx);
    IntToStringRoundTrip(cy);
  }

  /** A key names a cell of the grid. */
  predicate InGrid(key: string, n: int) {
    exists cx, cy :: 0 <= cx < n && 0 <= cy < n && key == CellKey(cx, cy)
  }

  /** Every cell is inside the grid, no cell is listed twice, and the counts add up to the binned rows. */
  lemma {:induction false} BinRowsSpec(rows: seq<EventRow>, vp: Dims, g: Grid)
    requires ValidGrid(g)
    ensures var t := BinRows(rows, vp, g);
            && Distinct(t) && Positive(t)
            && Total(t) == WithCoords(rows, vp)
            && forall k :: 0 <= k < |t| ==> InGrid(t[k].0, g.n)
    decreases |rows|
  {
    if |rows| > 0 {
      var init := rows[..|rows| - 1];
      BinRowsSpec(init, vp, g);
      var c := Coords(rows[|rows| - 1], vp);
      if c.Some? {
        BinStep(BinRows(init, vp, g), CellOf(c.value, g), g);
      }
    }
  }

  /** One bump keeps a table of grid cells distinct, positive and inside the grid. */
  lemma BinStep(t: Table<string>, key: string, g: Grid)
    requires Distinct(t) && Positive(t) && forall k :: 0 <= k < |t| ==> InGrid(t[k].0, g.n)
    requires InGrid(key, g.n)
    ensures var b := Bump(t, key);
            && Distinct(b) && Positive(b) && Total(b) == Total(t) + 1
            && forall k :: 0 <= k < |b| ==> InGrid(b[k].0, g.n)
  {
    BumpCounts(t, key);
    BumpKeys(t, key);
    BumpShape(t, key);
    var b := Bump(t, key);
    forall k | 0 <= k < |b| ensures InGrid(b[k].0, g.n) {
      if k < |t| {
        assert b[k].0 == t[k].0;
      } else {
        assert b[k].0 == key;
      }
    }
  }

  /** The rounded centre of cell (`cx`, `cy`). */
  function CellCentre(cx: int, cy: int, g: Grid): (int, int) {
    Centre(cx as real, cy as real, g)
  }

  /** A point made from a grid key sits at that cell's centre. */
  lemma PointInGrid(entry: (string, nat), g: Grid)
    requires InGrid(entry.0, g.n)
    ensures exists cx, cy :: 0 <= cx < g.n && 0 <= cy < g.n &&
              (PointOf(entry, g).x, PointOf(entry, g).y) == CellCentre(cx, cy, g)
  {
    var cx, cy :| 0 <= cx < g.n && 0 <= cy < g.n && entry.0 == CellKey(cx, cy);
    CellKeyRoundTrip(cx, cy);
    assert (PointOf(entry, g).x, PointOf(entry, g).y) == CellCentre(cx, cy, g);
  }

  /** Every emitted point lies on a cell centre of the grid, and the values add up to the rows with coordinates. */
  lemma HeatmapShape(rows: seq<EventRow>, n: int, viewportBucket: Option<string>)
    requires n >= 1
    ensures var r := HeatmapSpec(rows, n, viewportBucket);
            var g := GridOf(r.viewport, n);
            var t := BinRows(rows, r.viewport, g);
            && r.total == |rows| && r.resolution == n
            && |r.points| == |t| && Total(t) == WithCoords(rows, r.viewport)
            && (forall k :: 0 <= k < |r.points| ==> r.points[k].value == t[k].1 >= 1)
            && (forall k :: 0 <= k < |r.points| ==>
                  exists cx, cy :: 0 <= cx < n && 0 <= cy < n && (r.points[k].x, r.points[k].y) == CellCentre(cx, cy, g))
  {
    var r := HeatmapSpec(rows, n, viewportBucket);
    var g := GridOf(r.viewport, n);
    var t := BinRows(rows, r.viewport, g);
    BinRowsSpec(rows, r.viewport, g);
    forall k | 0 <= k < |r.points|
      ensures exists cx, cy :: 0 <= cx < n && 0 <= cy < n && (r.points[k].x, r.points[k].y) == CellCentre(cx, cy, g)
    {
      PointInGrid(t[k], g);
    }
  }

  /** Each entry of the binning table is a grid cell with the number of rows in it. */
  lemma EntryIsCell(rows: seq<EventRow>, vp: Dims, g: Grid, k: int) returns (cx: int, cy: int)
    requires ValidGrid(g) && 0 <= k < |BinRows(rows, vp, g)|
    ensures 0 <= cx < g.n && 0 <= cy < g.n
    ensures BinRows(rows, vp, g)[k] == (CellKey(cx, cy), CellCount(rows, vp, g, CellKey(cx, cy)))
  {
    var t := BinRows(rows, vp, g);
    BinRowsSpec(rows, vp, g);
    BinRowsCounts(rows, vp, g);
    cx, cy :| 0 <= cx < g.n && 0 <= cy < g.n && t[k].0 == CellKey(cx, cy);
    GetAt(t, k);
  }

  /** Each cell holding a row has an entry in the binning table, with that number of rows. */
  lemma CellHasEntry(rows: seq<EventRow>, vp: Dims, g: Grid, cx: int, cy: int) returns (k: int)
    requires ValidGrid(g) && CellCount(rows, vp, g, CellKey(cx, cy)) > 0
    ensures 0 <= k < |BinRows(rows, vp, g)|
    ensures BinRows(rows, vp, g)[k] == (CellKey(cx, cy), CellCount(rows, vp, g, CellKey(cx, cy)))
  {
    var t := BinRows(rows, vp, g);
    BinRowsSpec(rows, vp, g);
    BinRowsCounts(rows, vp, g);
    assert HasKey(t, CellKey(cx, cy));
    k :| 0 <= k < |t| && t[k].0 == CellKey(cx, cy);
    GetAt(t, k);
  }

  /** The point made from a cell's entry sits at that cell's centre with the entry's count. */
  lemma PointOfCell(cx: int, cy: int, count: nat, g: Grid)
    ensures var p := PointOf((CellKey(cx, cy), count), g);
            (p.x, p.y) == CellCentre(cx, cy, g) && p.value == count
  {
    CellKeyRoundTrip(cx, cy);
  }

  /**
   * The points of a binning are its cells: each point sits at the centre of a grid
   * cell and carries the number of rows in that cell, and every cell holding a row
   * has such a point.
   */
  lemma BinnedPoints(rows: seq<EventRow>, vp: Dims, g: Grid)
    requires ValidGrid(g)
    ensures var ps := Points(BinRows(rows, vp, g), g);
            && (forall k :: 0 <= k < |ps| ==>
                  exists cx, cy :: 0 <= cx < g.n && 0 <= cy < g.n && (ps[k].x, ps[k].y) == CellCentre(cx, cy, g)
                                   && ps[k].value == CellCount(rows, vp, g, CellKey(cx, cy)))
            && (forall cx, cy :: 0 <= cx < g.n && 0 <= cy < g.n && CellCount(rows, vp, g, CellKey(cx, cy)) > 0 ==>
                  exists k :: 0 <= k < |ps| && (ps[k].x, ps[k].y) == CellCentre(cx, cy, g)
                              && ps[k].value == CellCount(rows, vp, g, CellKey(cx, cy)))
  {
    var t := BinRows(rows, vp, g);
    var ps := Points(t, g);
    forall k | 0 <= k < |ps|
      ensures exists cx, cy :: 0 <= cx < g.n && 0 <= cy < g.n && (ps[k].x, ps[k].y) == CellCentre(cx, cy, g)
                               && ps[k].value == CellCount(rows, vp, g, CellKey(cx, cy))
    {
      var cx, cy := EntryIsCell(rows, vp, g, k);
      PointOfCell(cx, cy, t[k].1, g);
    }
    forall cx, cy | 0 <= cx < g.n && 0 <= cy < g.n && CellCount(rows, vp, g, CellKey(cx, cy)) > 0
      ensures exists k :: 0 <= k < |ps| && (ps[k].x, ps[k].y) == CellCentre(cx, cy, g)
                          && ps[k].value == CellCount(rows, vp, g, CellKey(cx, cy))
    {
      var k := CellHasEntry(rows, vp, g, cx, cy);
      PointOfCell(cx, cy, t[k].1, g);
    }
  }

  /** The heatmap's points are those of binning its rows over the chosen viewport. */
  lemma HeatmapPoints(rows: seq<EventRow>, n: int, viewportBucket: Option<string>)
    requires n >= 1
    ensures var r := HeatmapSpec(rows, n, viewportBucket);
            r.points == Points(BinRows(rows, r.viewport, GridOf(r.viewport, n)), GridOf(r.viewport, n))
  {
  }

  /** Every point of the heatmap is a cell of its grid with that cell's row count, and no non-empty cell is missing. */
  lemma HeatmapCells(rows: seq<EventRow>, n: int, viewportBucket: Option<string>)
    requires n >= 1
    ensures var r := HeatmapSpec(rows, n, viewportBucket);
            var g := GridOf(r.viewport, n);
            && (forall k :: 0 <= k < |r.points| ==>
                  exists cx, cy :: 0 <= cx < n && 0 <= cy < n && (r.points[k].x, r.points[k].y) == CellCentre(cx, cy, g)
                                   && r.points[k].value == CellCount(rows, r.viewport, g, CellKey(cx, cy)))
            && (forall cx, cy :: 0 <= cx < n && 0 <= cy < n && CellCount(rows, r.viewport, g, CellKey(cx, cy)) > 0 ==>
                  exists k :: 0 <= k < |r.points| && (r.points[k].x, r.points[k].y) == CellCentre(cx, cy, g)
                              && r.points[k].value == CellCount(rows, r.viewport, g, CellKey(cx, cy)))
  {
    var r := HeatmapSpec(rows, n, viewportBucket);
    HeatmapPoints(rows, n, viewportBucket);
    BinnedPoints(rows, r.viewport, GridOf(r.viewport, n));
  }

  /** One click row gives exactly one point, of value 1, at the centre of the cell its position falls in. */
  lemma OneClickOnePoint(row: EventRow, n: int, viewportBucket: Option<string>)
    requires n >= 1 && row.eventType == "click" && row.x.Some? && row.y.Some?
    ensures var r := HeatmapSpec([row], n, viewportBucket);
            var g := GridOf(r.viewport, n);
            && |r.points| == 1 && r.points[0].value == 1 && r.total == 1
            && (r.points[0].x, r.points[0].y)
               == CellCentre(CellIndex(row.x.value as real, g.cellW, n), CellIndex(row.y.value as real, g.cellH, n), g)
  {
    var r := HeatmapSpec([row], n, viewportBucket);
    var vp := r.viewport;
    var g := GridOf(vp, n);
    var cx := CellIndex(row.x.value as real, g.cellW, n);
    var cy := CellIndex(row.y.value as real, g.cellH, n);
    assert [row][..0] == [];
    assert Coords(row, vp) == Some((row.x.value as real, row.y.value as real));
    assert BinRows([row], vp, g) == [(CellKey(cx, cy), 1)];
    CellKeyRoundTrip(cx, cy);
  }

  /**
   * An explicit bucket wins. Otherwise, when some row carries a label, the chosen
   * bucket is a label carried by the most rows, and among labels carried by as many
   * rows the one that occurs first; when no row carries one, there is none.
   */
  lemma DominantBucket(rows: seq<EventRow>, viewportBucket: Option<string>)
    ensures var p := PreferredBucket(rows, viewportBucket);
            var explicit := viewportBucket.Some? && viewportBucket.value != "";
            && (explicit ==> p == viewportBucket)
            && (!explicit && (forall b :: b != "" ==> LabelCount(rows, b) == 0) ==> p.None?)
            && (!explicit && p.Some? ==>
                  && p.value != "" && LabelCount(rows, p.value) > 0
                  && (forall b :: b != "" ==> LabelCount(rows, b) <= LabelCount(rows, p.value))
                  && (forall b :: b != "" && b != p.value && LabelCount(rows, b) == LabelCount(rows, p.value) ==>
                        FirstSeen(rows, p.value) < FirstSeen(rows, b)))
  {
    var counts := CountBuckets(rows);
    CountBucketsDistinct(rows);
    CountBucketsSpec(rows);
    CountBucketsOrder(rows);
    if !(viewportBucket.Some? && viewportBucket.value != "") {
      if |counts| > 0 {
        var m := FirstMax(counts);
        var p := counts[m].0;
        GetAt(counts, m);
        assert HasKey(counts, p);
        forall b | b != "" ensures LabelCount(rows, b) <= LabelCount(rows, p)
          && (b != p && LabelCount(rows, b) == LabelCount(rows, p) ==> FirstSeen(rows, p) < FirstSeen(rows, b))
        {
          if HasKey(counts, b) {
            var i :| 0 <= i < |counts| && counts[i].0 == b;
            GetAt(counts, i);
            if b != p && LabelCount(rows, b) == LabelCount(rows, p) {
              assert i != m;
              assert !(i < m);
            }
          }
        }
      } else {
        assert forall b :: b != "" ==> LabelCount(rows, b) == 0 by {
          forall b | b != "" ensures LabelCount(rows, b) == 0 { assert !HasKey(counts, b); }
        }
      }
    }
  }

  lemma {:induction false} CountBucketsDistinct(rows: seq<EventRow>)
    ensures Distinct(CountBuckets(rows))
    decreases |rows|
  {
    if |rows| > 0 {
      CountBucketsDistinct(rows[..|rows| - 1]);
      var b := RowBucket(rows[|rows| - 1]);
      if b != "" {
        BumpKeys(CountBuckets(rows[..|rows| - 1]), b);
      }
    }
  }

  /** In a table without repeated keys, `Get` reads the entry at the key's position. */
  lemma {:induction false} GetAt<K>(t: Table<K>, i: nat)
    requires Distinct(t) && i < |t|
    ensures Get(t, t[i].0) == t[i].1 && HasKey(t, t[i].0)
  {
    if i > 0 {
      assert Distinct(t[1..]);
      GetAt(t[1..], i - 1);
      assert t[1..][i - 1] == t[i];
    }
  }

  /** Cells are clamped: a coordinate at or left of 0 falls in cell 0, one at or past the viewport's edge in cell N - 1. */
  lemma EdgesClamp(size: real, n: int, c: real)
    requires n >= 1 && size > 0.0
    ensures c <= 0.0 ==> CellIndex(c, size / n as real, n) == 0
    ensures c >= size ==> CellIndex(c, size / n as real, n) == n - 1
  {
    var cell := size / n as real;
    assert cell * n as real == size;
    assert cell > 0.0;
    if c >= size {
      assert c / cell >= n as real;
    }
    if c <= 0.0 {
      assert c / cell <= 0.0;
    }
  }
}
