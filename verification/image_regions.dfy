/** Crop regions of a panoramic image: overlapping tiles along the long axis, at most eight,
    that together show the whole picture. */
module ImageRegions {

  const MAX_DIMENSION: nat := 2048
  const MAX_TILES: nat := 8

  datatype Rect = Rect(minX: int, minY: int, maxX: int, maxY: int)

  function Width(r: Rect): int { r.maxX - r.minX }

  function Height(r: Rect): int { r.maxY - r.minY }

  function Max(a: int, b: int): int { if a > b then a else b }

  function Min(a: int, b: int): int { if a < b then a else b }

  function Long(r: Rect): int { Max(Width(r), Height(r)) }

  function Short(r: Rect): int { Min(Width(r), Height(r)) }

  /** Large and at least three times as long as wide. */
  predicate Tiled(r: Rect) {
    Long(r) > MAX_DIMENSION && Long(r) >= Short(r) * 3
  }

  // ----- tile arithmetic along the long axis

  function Overlap(short: int): int {
    Max(short, MAX_DIMENSION) / 16
  }

  function Edge(long: int, short: int): int {
    Max(Max(short, MAX_DIMENSION), (long + (MAX_TILES - 1) * Overlap(short) + MAX_TILES - 1) / MAX_TILES)
  }

  predicate Panorama(long: int, short: int) {
    short >= 1 && long > MAX_DIMENSION && long >= short * 3
  }

  lemma EdgeBounds(long: int, short: int)
    requires Panorama(long, short)
    ensures 0 < Overlap(short) < Edge(long, short) < long
    ensures MAX_TILES * (Edge(long, short) - Overlap(short)) >= long - Overlap(short)
  {
  }

  function Count(long: int, short: int): int
    requires Panorama(long, short)
  {
    EdgeBounds(long, short);
    var step := Edge(long, short) - Overlap(short);
    (long - Overlap(short) + step - 1) / step
  }

  lemma Multiples(k: int, d: int)
    requires d > 0
    ensures k >= 1 ==> k * d >= d
    ensures k <= -1 ==> k * d <= -d
    ensures k == 0 ==> k * d == 0
  {
  }

  lemma Distribute(a: int, b: int, d: int)
    ensures (a - b) * d == a * d - b * d && (a + b) * d == a * d + b * d
  {
  }

  /** Rounded up division is the least factor that reaches. */
  lemma CeilDiv(n: int, d: int)
    requires n > 0 && d > 0
    ensures var c := (n + d - 1) / d; c >= 1 && (c - 1) * d < n <= c * d
  {
  }

  lemma FewerIfLess(a: int, b: int, d: int)
    requires d > 0 && a * d < b * d
    ensures a < b
  {
  }

  /** At least two tiles and at most eight, and their steps reach the far edge. */
  lemma {:induction false} CountBounds(long: int, short: int)
    requires Panorama(long, short)
    ensures var count, edge, overlap := Count(long, short), Edge(long, short), Overlap(short);
      2 <= count <= MAX_TILES && (count - 1) * (edge - overlap) >= long - edge
  {
    EdgeBounds(long, short);
    var edge, overlap := Edge(long, short), Overlap(short);
    var count, step := Count(long, short), edge - overlap;
    hide Edge, Overlap;
    CeilDiv(long - overlap, step);
    FewerIfLess(count - 1, MAX_TILES, step);
    assert 1 * step < count * step;
    FewerIfLess(1, count, step);
    assert (count - 1) * step == count * step - step;
  }

  function Start(i: int, reach: int, gaps: int): int
    requires gaps > 0
  {
    i * reach / gaps
  }

  lemma DivRem(n: int, d: int)
    requires d > 0
    ensures n == n / d * d + n % d && 0 <= n % d < d
  {
  }

  lemma DivMonotone(a: int, b: int, d: int)
    requires d > 0 && a <= b
    ensures a / d <= b / d
  {
    DivRem(a, d);
    DivRem(b, d);
    Ordered(a / d, a % d, b / d, b % d, d);
  }

  lemma Ordered(p: int, r: int, q: int, s: int, d: int)
    requires d > 0 && p * d + r <= q * d + s && 0 <= r < d && 0 <= s < d
    ensures p <= q
  {
    Distribute(p, q, d);
    Multiples(p - q, d);
  }

  lemma DivShift(a: int, k: int, d: int)
    requires d > 0
    ensures (a + k * d) / d == a / d + k
  {
    var q, r := a / d, a % d;
    assert a == q * d + r && 0 <= r < d;
    Distribute(q, k, d);
    UniqueDiv(a + k * d, q + k, r, d);
  }

  lemma UniqueDiv(n: int, q: int, r: int, d: int)
    requires d > 0 && n == q * d + r && 0 <= r < d
    ensures n / d == q
  {
    DivRem(n, d);
    Ordered(n / d, n % d, q, r, d);
    Ordered(q, r, n / d, n % d, d);
  }

  lemma StartEnds(reach: int, gaps: int)
    requires gaps > 0
    ensures Start(0, reach, gaps) == 0 && Start(gaps, reach, gaps) == reach
  {
    UniqueDiv(0 * reach, 0, 0, gaps);
    assert gaps * reach == reach * gaps + 0;
    UniqueDiv(gaps * reach, reach, 0, gaps);
  }

  /** The next tile starts no earlier and at most one step later. */
  lemma StartSteps(i: int, reach: int, gaps: int, step: int)
    requires gaps > 0 && 0 <= reach <= gaps * step
    ensures Start(i, reach, gaps) <= Start(i + 1, reach, gaps) <= Start(i, reach, gaps) + step
  {
    assert (i + 1) * reach == i * reach + reach;
    assert gaps * step == step * gaps;
    DivMonotone(i * reach, (i + 1) * reach, gaps);
    DivMonotone((i + 1) * reach, i * reach + step * gaps, gaps);
    DivShift(i * reach, step, gaps);
  }

  lemma {:induction false} StartRange(i: nat, reach: int, gaps: int)
    requires gaps > 0 && reach >= 0 && i <= gaps
    ensures 0 <= Start(i, reach, gaps) <= reach
  {
    assert 0 <= i * reach;
    assert i * reach + (gaps - i) * reach == gaps * reach;
    assert (gaps - i) * reach >= 0;
    StartEnds(reach, gaps);
    DivMonotone(0 * reach, i * reach, gaps);
    DivMonotone(i * reach, gaps * reach, gaps);
  }

  /** A position is in the last tile that starts at or before it. */
  lemma {:induction false} Covered(p: int, i: nat, reach: int, gaps: int, edge: int, step: int)
    requires gaps > 0 && 0 <= reach <= gaps * step && step <= edge && i <= gaps
    requires Start(i, reach, gaps) <= p < reach + edge
    ensures exists k: nat :: k <= gaps && Start(k, reach, gaps) <= p < Start(k, reach, gaps) + edge
    decreases gaps - i
  {
    if p < Start(i, reach, gaps) + edge {
    } else {
      StartEnds(reach, gaps);
      StartSteps(i, reach, gaps, step);
      hide Start;
      Covered(p, i + 1, reach, gaps, edge, step);
    }
  }

  // ----- the regions

  predicate Inside(r: Rect, bounds: Rect) {
    bounds.minX <= r.minX < r.maxX <= bounds.maxX && bounds.minY <= r.minY < r.maxY <= bounds.maxY
  }

  predicate Contains(r: Rect, x: int, y: int) {
    r.minX <= x < r.maxX && r.minY <= y < r.maxY
  }

  /** Where a region starts along the long axis, measured from the picture's own corner. */
  function Offset(r: Rect, bounds: Rect): int {
    if Height(bounds) >= Width(bounds) then r.minY - bounds.minY else r.minX - bounds.minX
  }

  function End(r: Rect, bounds: Rect): int {
    if Height(bounds) >= Width(bounds) then r.maxY - bounds.minY else r.maxX - bounds.minX
  }

  function Slice(bounds: Rect, start: int, end: int): Rect {
    if Height(bounds) >= Width(bounds) then bounds.(minY := bounds.minY + start, maxY := bounds.minY + end)
    else bounds.(minX := bounds.minX + start, maxX := bounds.minX + end)
  }

  predicate SpansShortAxis(r: Rect, bounds: Rect) {
    r == Slice(bounds, Offset(r, bounds), End(r, bounds))
  }

  /** Everything the tiles of a panorama promise. */
  ghost predicate Tiles(regions: seq<Rect>, bounds: Rect)
    requires Panorama(Long(bounds), Short(bounds))
  {
    var overlap := Max(Short(bounds), 2048) / 16;
    && 2 <= |regions| <= 8
    && (forall i :: 0 <= i < |regions| ==> Inside(regions[i], bounds) && SpansShortAxis(regions[i], bounds))
    && Offset(regions[0], bounds) == 0
    && End(regions[|regions| - 1], bounds) == Long(bounds)
    && (forall i :: 0 < i < |regions| ==> Offset(regions[i], bounds) <= End(regions[i - 1], bounds) - overlap)
    && (forall x, y :: Contains(bounds, x, y) ==> exists i :: 0 <= i < |regions| && Contains(regions[i], x, y))
  }

  /** The tile at `i`. */
  function Tile(bounds: Rect, i: int): Rect
    requires Panorama(Long(bounds), Short(bounds))
  {
    CountBounds(Long(bounds), Short(bounds));
    var edge := Edge(Long(bounds), Short(bounds));
    var start := Start(i, Long(bounds) - edge, Count(Long(bounds), Short(bounds)) - 1);
    Slice(bounds, start, start + edge)
  }

  lemma TileInside(bounds: Rect, i: nat)
    requires Panorama(Long(bounds), Short(bounds)) && i < Count(Long(bounds), Short(bounds))
    ensures Inside(Tile(bounds, i), bounds) && SpansShortAxis(Tile(bounds, i), bounds)
  {
    var long, short := Long(bounds), Short(bounds);
    EdgeBounds(long, short);
    CountBounds(long, short);
    StartRange(i, long - Edge(long, short), Count(long, short) - 1);
    hide Edge, Count, Start, Overlap;
  }

  lemma TilesMeet(bounds: Rect, i: nat)
    requires Panorama(Long(bounds), Short(bounds)) && 0 < i < Count(Long(bounds), Short(bounds))
    ensures Offset(Tile(bounds, i), bounds) <= End(Tile(bounds, i - 1), bounds) - Overlap(Short(bounds))
  {
    var long, short := Long(bounds), Short(bounds);
    EdgeBounds(long, short);
    CountBounds(long, short);
    StartSteps(i - 1, long - Edge(long, short), Count(long, short) - 1, Edge(long, short) - Overlap(short));
    hide Edge, Count, Start, Overlap;
  }

  lemma TileEnds(bounds: Rect)
    requires Panorama(Long(bounds), Short(bounds))
    ensures Offset(Tile(bounds, 0), bounds) == 0
    ensures End(Tile(bounds, Count(Long(bounds), Short(bounds)) - 1), bounds) == Long(bounds)
  {
    var long, short := Long(bounds), Short(bounds);
    CountBounds(long, short);
    StartEnds(long - Edge(long, short), Count(long, short) - 1);
    hide Edge, Count, Start, Overlap;
  }

  lemma TileCovers(bounds: Rect, x: int, y: int)
    requires Panorama(Long(bounds), Short(bounds)) && Contains(bounds, x, y)
    ensures exists i: nat :: i < Count(Long(bounds), Short(bounds)) && Contains(Tile(bounds, i), x, y)
  {
    var long, short := Long(bounds), Short(bounds);
    var p := if Height(bounds) >= Width(bounds) then y - bounds.minY else x - bounds.minX;
    EdgeBounds(long, short);
    CountBounds(long, short);
    var edge, gaps := Edge(long, short), Count(long, short) - 1;
    StartEnds(long - edge, gaps);
    Covered(p, 0, long - edge, gaps, edge, edge - Overlap(short));
    var k: nat :| k <= gaps && Start(k, long - edge, gaps) <= p < Start(k, long - edge, gaps) + edge;
    hide Edge, Count, Start, Overlap;
    assert Contains(Tile(bounds, k), x, y);
  }

  lemma TilesHold(bounds: Rect, regions: seq<Rect>)
    requires Panorama(Long(bounds), Short(bounds)) && |regions| == Count(Long(bounds), Short(bounds))
    requires forall i :: 0 <= i < |regions| ==> regions[i] == Tile(bounds, i)
    ensures Tiles(regions, bounds)
  {
    CountBounds(Long(bounds), Short(bounds));
    TileEnds(bounds);
    hide Count, Tile, Contains, Slice, Offset, End;
    forall i | 0 <= i < |regions|
      ensures Inside(regions[i], bounds) && SpansShortAxis(regions[i], bounds)
    {
      TileInside(bounds, i);
    }
    forall i | 0 < i < |regions|
      ensures Offset(regions[i], bounds) <= End(regions[i - 1], bounds) - Overlap(Short(bounds))
    {
      TilesMeet(bounds, i);
    }
    forall x, y | Contains(bounds, x, y)
      ensures exists i :: 0 <= i < |regions| && Contains(regions[i], x, y)
    {
      TileCovers(bounds, x, y);
      var i: nat :| i < |regions| && Contains(Tile(bounds, i), x, y);
      assert Contains(regions[i], x, y);
    }
  }

  method ImagePreparationRegions(bounds: Rect) returns (regions: seq<Rect>)
    requires Width(bounds) >= 1 && Height(bounds) >= 1
    ensures Tiled(bounds) ==> Tiles(regions, bounds)
    ensures !Tiled(bounds) ==> regions == [bounds]
    ensures var w, h := Width(bounds), Height(bounds);
      (w <= 2048 && h <= 2048) || (w < 3 * h && h < 3 * w) ==> regions == [bounds]
    ensures var w, h := Width(bounds), Height(bounds);
      (w > 2048 || h > 2048) && (w >= 3 * h || h >= 3 * w) ==> |regions| >= 2
  {
    var w, h := Width(bounds), Height(bounds);
    var long, short := Max(w, h), Min(w, h);
    if long <= MAX_DIMENSION || long < short * 3 {
      return [bounds];
    }
    EdgeBounds(long, short);
    CountBounds(long, short);
    var edge := Max(short, MAX_DIMENSION);
    var overlap := edge / 16;
    edge := Max(edge, (long + (MAX_TILES - 1) * overlap + MAX_TILES - 1) / MAX_TILES);
    assert edge == Edge(long, short) && overlap == Overlap(short);
    var count := (long - overlap + edge - overlap - 1) / (edge - overlap);
    assert count == Count(long, short);
    hide Edge, Overlap, Count;
    regions := [];
    for i := 0 to count
      invariant |regions| == i && forall j :: 0 <= j < i ==> regions[j] == Tile(bounds, j)
    {
      var start := i * (long - edge) / (count - 1);
      var end := start + edge;
      var region := bounds;
      if h >= w {
        region := region.(minY := bounds.minY + start, maxY := bounds.minY + end);
      } else {
        region := region.(minX := bounds.minX + start, maxX := bounds.minX + end);
      }
      assert region == Tile(bounds, i);
      regions := regions + [region];
    }
    TilesHold(bounds, regions);
  }
}
