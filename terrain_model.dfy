/**
 * The terrain's height samples and the pure rules that the Terrain component
 * applies to them: where raw samples go, the in-place moving-average smoothing
 * pass, which samples survive a streaming step, which collision segments a
 * batch of samples produces, where a fuel canister goes, and when the
 * driver's head touches a terrain body.
 */
module TerrainModel {
  import opened Constants
  import opened Engine

  /** One height sample: `x` grows to the right, `y` grows downwards (smaller is higher). */
  datatype Point = Point(x: real, y: real)

  /** A terrain collision body, identified by the two samples it joins. */
  datatype Segment = Segment(from: Point, to: Point)

  /** The two random draws `addFuelCanister` makes: first the index, then the coin. */
  datatype CanisterDraw = CanisterDraw(index: real, coin: real)

  /** Half-width of the smoothing window: flattened indices `[i - 2, i + 2)` are averaged. */
  const WINDOW_SIZE: int := 2
  /** Number of smoothing passes run over every generated block. */
  const SMOOTH_PASSES: nat := 3

  /** A value `Math.random` can return. */
  predicate IsRandom(r: real) {
    0.0 <= r < 1.0
  }

  predicate AllRandom(rs: seq<real>) {
    forall k :: 0 <= k < |rs| ==> IsRandom(rs[k])
  }

  /** Samples lie `MAP_UNIT` apart, the first one at `base`. */
  predicate OnGrid(ps: seq<Point>, base: real) {
    forall k :: 0 <= k < |ps| ==> ps[k].x == base + k as real * MAP_UNIT
  }

  predicate HeightsWithin(ps: seq<Point>, lo: real, hi: real) {
    forall k :: 0 <= k < |ps| ==> lo <= ps[k].y <= hi
  }

  predicate SameXs(a: seq<Point>, b: seq<Point>) {
    |a| == |b| && forall k :: 0 <= k < |a| ==> a[k].x == b[k].x
  }

  // ---------------------------------------------------------------------------
  // Arithmetic helpers
  // ---------------------------------------------------------------------------

  lemma ScaleByRandom(r: real, m: real)
    requires IsRandom(r) && 0.0 <= m
    ensures 0.0 <= r * m <= m
    ensures 0.0 < m ==> r * m < m
  {
  }

  lemma AddOneTimes(n: real, c: real)
    ensures (n + 1.0) * c == n * c + c
  {
  }

  lemma MeanBetween(sum: real, n: real, lo: real, hi: real)
    requires 0.0 < n && n * lo <= sum <= n * hi
    ensures lo <= sum / n <= hi
  {
  }

  // ---------------------------------------------------------------------------
  // Raw samples
  // ---------------------------------------------------------------------------

  function Ceil(q: real): int {
    -((-q).Floor)
  }

  /** How many times the loop `for (x = startX; x < endX; x += MAP_UNIT)` runs. */
  function PointCount(startX: real, endX: real): nat {
    if endX <= startX then 0 else Ceil((endX - startX) / MAP_UNIT)
  }

  /** The loop visits `startX + k * MAP_UNIT` exactly for the `k` below `PointCount`. */
  lemma PointCountGrid(startX: real, endX: real, k: int)
    requires 0 <= k
    ensures startX + k as real * MAP_UNIT < endX <==> k < PointCount(startX, endX)
  {
    if startX < endX {
      var q := (endX - startX) / MAP_UNIT;
      assert (-q).Floor as real <= -q < (-q).Floor as real + 1.0;
      assert startX + k as real * MAP_UNIT < endX <==> k as real < q;
    }
  }

  /** A generated block and the live window hold 32 and 80 samples. */
  lemma SpanCounts(x: real)
    ensures PointCount(x, x + MAP_BLOCK_SIZE) == BLOCK_POINTS
    ensures PointCount(x, x + MAP_SIZE) == WINDOW_POINTS
  {
    assert (x + MAP_BLOCK_SIZE - x) / MAP_UNIT == 32.0;
    assert (x + MAP_SIZE - x) / MAP_UNIT == 80.0;
    assert (-32.0).Floor == -32;
    assert (-80.0).Floor == -80;
  }

  /** `SCREEN_HEIGHT - Math.floor(r * maxY)`. */
  function RawHeight(r: real, maxY: real): real {
    SCREEN_HEIGHT - (r * maxY).Floor as real
  }

  /** A raw height lies between `SCREEN_HEIGHT - maxY` and `SCREEN_HEIGHT`. */
  lemma RawHeightWithin(r: real, maxY: real)
    requires IsRandom(r) && 0.0 <= maxY
    ensures SCREEN_HEIGHT - maxY <= RawHeight(r, maxY) <= SCREEN_HEIGHT
  {
    var v := r * maxY;
    ScaleByRandom(r, maxY);
    assert v.Floor as real <= v < v.Floor as real + 1.0;
  }

  /** The unsmoothed block: one sample per random value, `MAP_UNIT` apart from `startX`. */
  function RawBlock(startX: real, maxY: real, noise: seq<real>): (raw: seq<Point>)
    ensures |raw| == |noise|
  {
    seq(|noise|, k requires 0 <= k < |noise| =>
      Point(startX + k as real * MAP_UNIT, RawHeight(noise[k], maxY)))
  }

  /** The raw block of a longer noise sequence extends the shorter one by one sample. */
  lemma RawBlockSnoc(startX: real, maxY: real, noise: seq<real>, k: nat)
    requires k < |noise|
    ensures RawBlock(startX, maxY, noise[..k + 1])
         == RawBlock(startX, maxY, noise[..k]) + [Point(startX + k as real * MAP_UNIT, RawHeight(noise[k], maxY))]
  {
    var longer := RawBlock(startX, maxY, noise[..k + 1]);
    var shorter := RawBlock(startX, maxY, noise[..k]);
    assert forall t :: 0 <= t < k ==> longer[t] == shorter[t];
  }

  lemma RawBlockShape(startX: real, maxY: real, noise: seq<real>)
    requires AllRandom(noise) && 0.0 <= maxY
    ensures OnGrid(RawBlock(startX, maxY, noise), startX)
    ensures HeightsWithin(RawBlock(startX, maxY, noise), SCREEN_HEIGHT - maxY, SCREEN_HEIGHT)
  {
    var raw := RawBlock(startX, maxY, noise);
    forall k | 0 <= k < |raw|
      ensures SCREEN_HEIGHT - maxY <= raw[k].y <= SCREEN_HEIGHT
    {
      RawHeightWithin(noise[k], maxY);
    }
  }

  // ---------------------------------------------------------------------------
  // Smoothing
  // ---------------------------------------------------------------------------

  /**
   * The height at flattened index `j` of the committed samples followed by the
   * block being smoothed.
   */
  function FlatY(prior: seq<Point>, cur: seq<Point>, j: int): real
    requires 0 <= j < |prior| + |cur|
  {
    if j < |prior| then prior[j].y else cur[j - |prior|].y
  }

  /** Sum of the heights at the flattened indices of `[lo, hi)` that exist. */
  function WindowSum(prior: seq<Point>, cur: seq<Point>, lo: int, hi: int): real
    decreases hi - lo
  {
    if hi <= lo then 0.0
    else WindowSum(prior, cur, lo, hi - 1)
         + (if 0 <= hi - 1 < |prior| + |cur| then FlatY(prior, cur, hi - 1) else 0.0)
  }

  /** Number of indices of `[lo, hi)` inside `[0, total)`: the window is clipped, not padded. */
  function WindowCount(total: int, lo: int, hi: int): (n: nat)
    ensures n as real == MaxReal(0.0, MinReal(hi as real, total as real) - MaxReal(lo as real, 0.0))
    decreases hi - lo
  {
    if hi <= lo then 0
    else WindowCount(total, lo, hi - 1) + (if 0 <= hi - 1 < total then 1 else 0)
  }

  /** The window around a sample of the block always holds the sample itself. */
  lemma WindowCountPositive(total: int, i: int)
    requires 0 <= i < total
    ensures 1 <= WindowCount(total, i - WINDOW_SIZE, i + WINDOW_SIZE) <= 2 * WINDOW_SIZE
  {
  }

  /** The mean height of the clipped window around flattened index `i`. */
  function NeighbourMean(prior: seq<Point>, cur: seq<Point>, i: int): real
    requires |prior| <= i < |prior| + |cur|
  {
    WindowCountPositive(|prior| + |cur|, i);
    WindowSum(prior, cur, i - WINDOW_SIZE, i + WINDOW_SIZE)
      / WindowCount(|prior| + |cur|, i - WINDOW_SIZE, i + WINDOW_SIZE) as real
  }

  /**
   * The window mean times the number of samples in the clipped window gives
   * back their sum: the divisor counts exactly the samples that were added.
   */
  lemma NeighbourMeanIsMean(prior: seq<Point>, cur: seq<Point>, i: int)
    requires |prior| <= i < |prior| + |cur|
    ensures 1 <= WindowCount(|prior| + |cur|, i - WINDOW_SIZE, i + WINDOW_SIZE) <= 2 * WINDOW_SIZE
    ensures NeighbourMean(prior, cur, i) * WindowCount(|prior| + |cur|, i - WINDOW_SIZE, i + WINDOW_SIZE) as real
            == WindowSum(prior, cur, i - WINDOW_SIZE, i + WINDOW_SIZE)
  {
    WindowCountPositive(|prior| + |cur|, i);
  }

  /**
   * The block after the first `k` samples of one pass were replaced, left to
   * right, by their window mean. Each replacement reads the replaced values of
   * the samples before it and the not yet replaced values of itself and the
   * sample after it.
   */
  function PassPrefix(prior: seq<Point>, cur: seq<Point>, k: nat): (s: seq<Point>)
    requires k <= |cur|
    ensures SameXs(s, cur)
    ensures forall t :: k <= t < |cur| ==> s[t] == cur[t]
  {
    if k == 0 then cur
    else
      var s := PassPrefix(prior, cur, k - 1);
      s[k - 1 := s[k - 1].(y := NeighbourMean(prior, s, |prior| + k - 1))]
  }

  /** Replacing the next sample of a partial pass gives the partial pass one sample longer. */
  lemma PassPrefixNext(prior: seq<Point>, cur: seq<Point>, k: nat, s: seq<Point>)
    requires k < |cur| && s == PassPrefix(prior, cur, k)
    ensures |s| == |cur|
    ensures PassPrefix(prior, cur, k + 1) == s[k := s[k].(y := NeighbourMean(prior, s, |prior| + k))]
  {
  }

  /** Later steps of a pass leave the samples already replaced as they are. */
  lemma {:induction false} PassPrefixStable(prior: seq<Point>, cur: seq<Point>, k: nat, m: nat)
    requires k <= m <= |cur|
    ensures |PassPrefix(prior, cur, m)| == |cur|
    ensures PassPrefix(prior, cur, m)[..k] == PassPrefix(prior, cur, k)[..k]
    decreases m
  {
    if m > k {
      PassPrefixStable(prior, cur, k, m - 1);
    }
  }

  /**
   * After `k` steps of a pass, each of the first `k` samples keeps its `x`
   * and has the mean of its window as it stood when the step reached it: the
   * samples before it already replaced, itself and the ones after it not yet.
   */
  lemma PassPrefixInPlace(prior: seq<Point>, cur: seq<Point>, k: nat)
    requires k <= |cur|
    ensures |PassPrefix(prior, cur, k)| == |cur|
    ensures forall t :: 0 <= t < k ==>
      PassPrefix(prior, cur, k)[t]
        == cur[t].(y := NeighbourMean(prior, PassPrefix(prior, cur, k)[..t] + cur[t..], |prior| + t))
  {
    forall t | 0 <= t < k
      ensures PassPrefix(prior, cur, k)[t]
        == cur[t].(y := NeighbourMean(prior, PassPrefix(prior, cur, k)[..t] + cur[t..], |prior| + t))
    {
      PassPrefixAt(prior, cur, k, t);
    }
  }

  /** The step at `t` reads the replaced samples before it and the original ones from `t` on. */
  lemma PassPrefixStep(prior: seq<Point>, cur: seq<Point>, t: nat)
    requires t < |cur|
    ensures |PassPrefix(prior, cur, t)| == |cur|
    ensures PassPrefix(prior, cur, t + 1)
      == PassPrefix(prior, cur, t)[t := cur[t].(y := NeighbourMean(prior, PassPrefix(prior, cur, t)[..t] + cur[t..], |prior| + t))]
  {
    var p := PassPrefix(prior, cur, t);
    assert p[..t] + cur[t..] == p;
  }

  /** The sample at `t` once a pass has gone past it. */
  lemma PassPrefixAt(prior: seq<Point>, cur: seq<Point>, k: nat, t: nat)
    requires t < k <= |cur|
    ensures |PassPrefix(prior, cur, k)| == |cur|
    ensures PassPrefix(prior, cur, k)[t]
      == cur[t].(y := NeighbourMean(prior, PassPrefix(prior, cur, k)[..t] + cur[t..], |prior| + t))
  {
    PassPrefixStep(prior, cur, t);
    PassPrefixStable(prior, cur, t + 1, k);
    ReplacedStays(prior, cur, PassPrefix(prior, cur, k), PassPrefix(prior, cur, t), t);
  }

  /**
   * A block that agrees up to `t` with the step at `t` has, at `t`, the mean
   * read from its own earlier samples.
   */
  lemma ReplacedStays(prior: seq<Point>, cur: seq<Point>, r: seq<Point>, p: seq<Point>, t: nat)
    requires |r| == |p| == |cur| && t < |cur|
    requires r[..t + 1] == p[t := cur[t].(y := NeighbourMean(prior, p[..t] + cur[t..], |prior| + t))][..t + 1]
    ensures r[t] == cur[t].(y := NeighbourMean(prior, r[..t] + cur[t..], |prior| + t))
  {
    var q := p[t := cur[t].(y := NeighbourMean(prior, p[..t] + cur[t..], |prior| + t))];
    assert r[t] == r[..t + 1][t];
    assert r[..t] == p[..t] by {
      assert r[..t] == r[..t + 1][..t];
      assert q[..t + 1][..t] == p[..t];
    }
  }

  /** One full smoothing pass over the block, with `prior` as left context; it moves no sample. */
  function SmoothPass(prior: seq<Point>, cur: seq<Point>): (r: seq<Point>)
    ensures SameXs(r, cur)
  {
    PassPrefix(prior, cur, |cur|)
  }

  /**
   * What a pass computes: every sample keeps its `x` and gets the mean of its
   * window, read with the samples before it already replaced and the ones
   * after it not yet.
   */
  lemma SmoothPassInPlace(prior: seq<Point>, cur: seq<Point>)
    ensures |SmoothPass(prior, cur)| == |cur|
    ensures forall t :: 0 <= t < |cur| ==>
      SmoothPass(prior, cur)[t]
        == cur[t].(y := NeighbourMean(prior, SmoothPass(prior, cur)[..t] + cur[t..], |prior| + t))
  {
    PassPrefixInPlace(prior, cur, |cur|);
  }

  /** `n` smoothing passes, each reading the previous pass's output. */
  function SmoothIter(prior: seq<Point>, cur: seq<Point>, n: nat): (s: seq<Point>)
    ensures SameXs(s, cur)
  {
    if n == 0 then cur else SmoothPass(prior, SmoothIter(prior, cur, n - 1))
  }

  /** The block `generatePoints` returns: raw samples smoothed three times. */
  function Smoothed(prior: seq<Point>, raw: seq<Point>): (r: seq<Point>)
    ensures SameXs(r, raw)
    ensures r == SmoothPass(prior, SmoothPass(prior, SmoothPass(prior, raw)))
  {
    assert SmoothIter(prior, raw, 1) == SmoothPass(prior, raw);
    assert SmoothIter(prior, raw, 2) == SmoothPass(prior, SmoothPass(prior, raw));
    SmoothIter(prior, raw, SMOOTH_PASSES)
  }

  /** `n * c` as `n` repeated additions, which keeps the window proofs linear. */
  function Repeat(n: nat, c: real): real {
    if n == 0 then 0.0 else Repeat(n - 1, c) + c
  }

  lemma {:induction false} RepeatIsProduct(n: nat, c: real)
    ensures Repeat(n, c) == n as real * c
  {
    if n > 0 {
      RepeatIsProduct(n - 1, c);
      AddOneTimes((n - 1) as real, c);
    }
  }

  /** A window of heights within `[lo, hi]` sums to within `[n * lo, n * hi]`. */
  lemma {:induction false} WindowSumWithin(prior: seq<Point>, cur: seq<Point>, a: int, b: int, lo: real, hi: real)
    requires HeightsWithin(prior, lo, hi) && HeightsWithin(cur, lo, hi)
    ensures Repeat(WindowCount(|prior| + |cur|, a, b), lo) <= WindowSum(prior, cur, a, b)
    ensures WindowSum(prior, cur, a, b) <= Repeat(WindowCount(|prior| + |cur|, a, b), hi)
    decreases b - a
  {
    var total := |prior| + |cur|;
    if a < b {
      WindowSumWithin(prior, cur, a, b - 1, lo, hi);
      if 0 <= b - 1 < total {
        var y := FlatY(prior, cur, b - 1);
        assert lo <= y <= hi;
      }
    }
  }

  /** A window mean lies between the least and the greatest height it averages. */
  lemma NeighbourMeanWithin(prior: seq<Point>, cur: seq<Point>, i: int, lo: real, hi: real)
    requires |prior| <= i < |prior| + |cur|
    requires HeightsWithin(prior, lo, hi) && HeightsWithin(cur, lo, hi)
    ensures lo <= NeighbourMean(prior, cur, i) <= hi
  {
    var total := |prior| + |cur|;
    WindowCountPositive(total, i);
    WindowSumWithin(prior, cur, i - WINDOW_SIZE, i + WINDOW_SIZE, lo, hi);
    var n := WindowCount(total, i - WINDOW_SIZE, i + WINDOW_SIZE);
    var sum := WindowSum(prior, cur, i - WINDOW_SIZE, i + WINDOW_SIZE);
    MeanOfWindow(sum, n, lo, hi);
    assert NeighbourMean(prior, cur, i) == sum / n as real;
  }

  /** A sum of `n` values in `[lo, hi]`, divided by `n`, lies in `[lo, hi]`. */
  lemma MeanOfWindow(sum: real, n: nat, lo: real, hi: real)
    requires 1 <= n && Repeat(n, lo) <= sum <= Repeat(n, hi)
    ensures lo <= sum / n as real <= hi
  {
    RepeatIsProduct(n, lo);
    RepeatIsProduct(n, hi);
    MeanBetween(sum, n as real, lo, hi);
  }

  lemma {:induction false} PassPrefixWithin(prior: seq<Point>, cur: seq<Point>, k: nat, lo: real, hi: real)
    requires k <= |cur|
    requires HeightsWithin(prior, lo, hi) && HeightsWithin(cur, lo, hi)
    ensures HeightsWithin(PassPrefix(prior, cur, k), lo, hi)
  {
    if k > 0 {
      PassPrefixWithin(prior, cur, k - 1, lo, hi);
      var s := PassPrefix(prior, cur, k - 1);
      NeighbourMeanWithin(prior, s, |prior| + k - 1, lo, hi);
    }
  }

  /**
   * Smoothing never leaves the range of its inputs: if the committed samples
   * and the raw block lie within `[lo, hi]`, so does every smoothed height.
   */
  lemma {:induction false} SmoothIterWithin(prior: seq<Point>, cur: seq<Point>, n: nat, lo: real, hi: real)
    requires HeightsWithin(prior, lo, hi) && HeightsWithin(cur, lo, hi)
    ensures HeightsWithin(SmoothIter(prior, cur, n), lo, hi)
  {
    if n > 0 {
      SmoothIterWithin(prior, cur, n - 1, lo, hi);
      PassPrefixWithin(prior, SmoothIter(prior, cur, n - 1), |cur|, lo, hi);
    }
  }

  /** Flat ground stays flat: smoothing a constant height changes nothing. */
  lemma FlatStaysFlat(prior: seq<Point>, cur: seq<Point>, c: real)
    requires HeightsWithin(prior, c, c) && HeightsWithin(cur, c, c)
    ensures Smoothed(prior, cur) == cur
  {
    SmoothIterWithin(prior, cur, SMOOTH_PASSES, c, c);
    var s := Smoothed(prior, cur);
    assert forall k :: 0 <= k < |s| ==> s[k] == Point(cur[k].x, c) == cur[k];
  }

  /**
   * The pass works in place: with no committed samples and raw heights
   * 0, 0, 12, the last sample averages the already smoothed 4 of its
   * neighbour, giving 16/3 (a pass reading only old values would give 4).
   */
  lemma InPlaceReadAfterWrite()
    ensures var cur := [Point(0.0, 0.0), Point(50.0, 0.0), Point(100.0, 12.0)];
            SmoothPass([], cur) == [Point(0.0, 0.0), Point(50.0, 4.0), Point(100.0, 16.0 / 3.0)]
  {
    var cur := [Point(0.0, 0.0), Point(50.0, 0.0), Point(100.0, 12.0)];
    var s1 := PassPrefix([], cur, 1);
    assert WindowSum([], cur, -2, 2) == 0.0;
    assert s1 == [Point(0.0, 0.0), Point(50.0, 0.0), Point(100.0, 12.0)];
    var s2 := PassPrefix([], cur, 2);
    assert WindowSum([], s1, -1, 3) == 12.0;
    assert s2 == [Point(0.0, 0.0), Point(50.0, 4.0), Point(100.0, 12.0)];
    assert WindowSum([], s2, 0, 4) == 16.0;
  }

  /** Three passes of smoothing keep every `x` and stay within the range of their inputs. */
  lemma GeneratedBlockShape(prior: seq<Point>, startX: real, maxY: real, noise: seq<real>)
    requires AllRandom(noise) && 0.0 <= maxY
    requires HeightsWithin(prior, SCREEN_HEIGHT - maxY, SCREEN_HEIGHT)
    ensures OnGrid(Smoothed(prior, RawBlock(startX, maxY, noise)), startX)
    ensures HeightsWithin(Smoothed(prior, RawBlock(startX, maxY, noise)), SCREEN_HEIGHT - maxY, SCREEN_HEIGHT)
  {
    RawBlockShape(startX, maxY, noise);
    SmoothIterWithin(prior, RawBlock(startX, maxY, noise), SMOOTH_PASSES, SCREEN_HEIGHT - maxY, SCREEN_HEIGHT);
  }

  // ---------------------------------------------------------------------------
  // Streaming step
  // ---------------------------------------------------------------------------

  /** `points.filter(p => p.x >= edge)`. */
  function Survivors(ps: seq<Point>, edge: real): (r: seq<Point>)
    ensures |r| <= |ps|
  {
    if ps == [] then []
    else (if ps[0].x >= edge then [ps[0]] else []) + Survivors(ps[1..], edge)
  }

  /** The survivors are exactly the samples at or right of the edge. */
  lemma {:induction false} SurvivorsAre(ps: seq<Point>, edge: real)
    ensures forall p :: p in Survivors(ps, edge) <==> p in ps && p.x >= edge
  {
    if ps != [] {
      SurvivorsAre(ps[1..], edge);
      assert ps == [ps[0]] + ps[1..];
    }
  }

  /** On a sorted run, the survivors are the suffix that starts at the first kept sample. */
  lemma {:induction false} SurvivorsSuffix(ps: seq<Point>, edge: real, m: nat)
    requires m <= |ps|
    requires forall k :: 0 <= k < m ==> ps[k].x < edge
    requires forall k :: m <= k < |ps| ==> ps[k].x >= edge
    ensures Survivors(ps, edge) == ps[m..]
  {
    if ps != [] {
      if m == 0 {
        SurvivorsSuffix(ps[1..], edge, 0);
      } else {
        SurvivorsSuffix(ps[1..], edge, m - 1);
      }
    }
  }

  /** Moving the left edge by one block of a full window keeps its last 48 samples. */
  lemma SurvivorsOfWindow(ps: seq<Point>, leftEdge: real)
    requires OnGrid(ps, leftEdge) && |ps| == WINDOW_POINTS
    ensures Survivors(ps, leftEdge + MAP_BLOCK_SIZE) == ps[BLOCK_POINTS..]
  {
    SurvivorsSuffix(ps, leftEdge + MAP_BLOCK_SIZE, BLOCK_POINTS);
  }

  /**
   * A streaming step keeps the window shape: dropping the first block of a
   * full window and appending a block that starts at the old right edge gives
   * a full window that starts one block further right.
   */
  lemma StreamStepKeepsWindow(ps: seq<Point>, leftEdge: real, block: seq<Point>, lo: real, hi: real)
    requires |ps| == WINDOW_POINTS && OnGrid(ps, leftEdge) && HeightsWithin(ps, lo, hi)
    requires |block| == BLOCK_POINTS && OnGrid(block, leftEdge + MAP_SIZE) && HeightsWithin(block, lo, hi)
    ensures |ps[BLOCK_POINTS..] + block| == WINDOW_POINTS
    ensures OnGrid(ps[BLOCK_POINTS..] + block, leftEdge + MAP_BLOCK_SIZE)
    ensures HeightsWithin(ps[BLOCK_POINTS..] + block, lo, hi)
  {
    var next := ps[BLOCK_POINTS..] + block;
    forall k | 0 <= k < |next|
      ensures next[k].x == leftEdge + MAP_BLOCK_SIZE + k as real * MAP_UNIT
      ensures lo <= next[k].y <= hi
    {
      if k < WINDOW_POINTS - BLOCK_POINTS {
        assert next[k] == ps[k + BLOCK_POINTS];
      } else {
        assert next[k] == block[k - (WINDOW_POINTS - BLOCK_POINTS)];
      }
    }
  }

  /**
   * One streaming step on the samples: the survivors of a full window are its
   * last 48 samples, the block generated at the right edge has 32 samples and
   * starts there, and together they form a full window one block further right
   * with every height still in range.
   */
  lemma StreamStep(ps: seq<Point>, leftEdge: real, rightEdge: real, noise: seq<real>)
    requires |ps| == WINDOW_POINTS && OnGrid(ps, leftEdge) && rightEdge == leftEdge + MAP_SIZE
    requires HeightsWithin(ps, SCREEN_HEIGHT - MAX_TERRAIN_HEIGHT, SCREEN_HEIGHT)
    requires |noise| == BLOCK_POINTS && AllRandom(noise)
    ensures PointCount(rightEdge, rightEdge + MAP_BLOCK_SIZE) == BLOCK_POINTS
    ensures Survivors(ps, leftEdge + MAP_BLOCK_SIZE) == ps[BLOCK_POINTS..]
    ensures var block := Smoothed(ps, RawBlock(rightEdge, MAX_TERRAIN_HEIGHT, noise));
            && |block| == BLOCK_POINTS && block[0].x == rightEdge
            && |ps[BLOCK_POINTS..] + block| == WINDOW_POINTS
            && OnGrid(ps[BLOCK_POINTS..] + block, leftEdge + MAP_BLOCK_SIZE)
            && HeightsWithin(ps[BLOCK_POINTS..] + block, SCREEN_HEIGHT - MAX_TERRAIN_HEIGHT, SCREEN_HEIGHT)
  {
    SpanCounts(rightEdge);
    SurvivorsOfWindow(ps, leftEdge);
    var block := Smoothed(ps, RawBlock(rightEdge, MAX_TERRAIN_HEIGHT, noise));
    GeneratedBlockShape(ps, rightEdge, MAX_TERRAIN_HEIGHT, noise);
    StreamStepKeepsWindow(ps, leftEdge, block, SCREEN_HEIGHT - MAX_TERRAIN_HEIGHT, SCREEN_HEIGHT);
  }

  /**
   * The terrain bodies that survive an eviction: those whose left bound, as
   * the physics engine reports it in `minX`, is right of `edge`.
   */
  function KeptBodies(bodies: seq<Segment>, minX: seq<real>, edge: real): (r: seq<Segment>)
    requires |minX| == |bodies|
    ensures |r| <= |bodies|
    decreases |bodies|
  {
    if bodies == [] then []
    else (if minX[0] > edge then [bodies[0]] else []) + KeptBodies(bodies[1..], minX[1..], edge)
  }

  /** The kept bodies are exactly those whose left bound is right of the edge. */
  lemma {:induction false} KeptBodiesAre(bodies: seq<Segment>, minX: seq<real>, edge: real)
    requires |minX| == |bodies|
    ensures forall k :: 0 <= k < |bodies| && minX[k] > edge ==> bodies[k] in KeptBodies(bodies, minX, edge)
    ensures forall s :: s in KeptBodies(bodies, minX, edge) ==>
              exists k :: 0 <= k < |bodies| && bodies[k] == s && minX[k] > edge
    decreases |bodies|
  {
    if bodies != [] {
      var rest := KeptBodies(bodies[1..], minX[1..], edge);
      KeptBodiesAre(bodies[1..], minX[1..], edge);
      forall k | 0 < k < |bodies| && minX[k] > edge
        ensures bodies[k] in KeptBodies(bodies, minX, edge)
      {
        assert bodies[1..][k - 1] == bodies[k] && minX[1..][k - 1] == minX[k];
      }
      forall s | s in KeptBodies(bodies, minX, edge)
        ensures exists k :: 0 <= k < |bodies| && bodies[k] == s && minX[k] > edge
      {
        if s in rest {
          var j :| 0 <= j < |bodies| - 1 && bodies[1..][j] == s && minX[1..][j] > edge;
          assert bodies[j + 1] == s && minX[j + 1] > edge;
        } else {
          assert bodies[0] == s && minX[0] > edge;
        }
      }
    }
  }

  /**
   * The collision segments `createTerrainBodyNew` builds: one per sample, the
   * first joining the first sample to itself, every other one joining a sample
   * to its predecessor.
   */
  function SegmentsOf(batch: seq<Point>): (r: seq<Segment>)
    ensures |r| == |batch|
    ensures |batch| > 0 ==> r[0] == Segment(batch[0], batch[0])
    ensures forall i :: 0 < i < |batch| ==> r[i] == Segment(batch[i - 1], batch[i])
  {
    if batch == [] then []
    else
      var n := |batch|;
      SegmentsOf(batch[..n - 1]) + [Segment(batch[if n == 1 then 0 else n - 2], batch[n - 1])]
  }

  /** `Math.floor(r * n)`: an index into a batch of `n` samples. */
  function CanisterIndex(n: nat, r: real): (idx: nat)
    requires 0 < n && IsRandom(r)
    ensures idx < n
  {
    var v := r * n as real;
    ScaleByRandom(r, n as real);
    v.Floor
  }

  /** Where `addFuelCanister` places a canister, if anywhere: at a sample of the batch, on a coin above 0.5. */
  function CanisterSpot(batch: seq<Point>, draw: CanisterDraw): (r: Option<Point>)
    requires 0 < |batch| && IsRandom(draw.index)
    ensures r.Some? <==> draw.coin > 0.5
    ensures r.Some? ==> r.value in batch
  {
    var idx := CanisterIndex(|batch|, draw.index);
    if draw.coin > 0.5 then Some(batch[idx]) else None
  }

  function OptionToSeq<T>(o: Option<T>): seq<T> {
    if o.Some? then [o.value] else []
  }

  // ---------------------------------------------------------------------------
  // Hazard test
  // ---------------------------------------------------------------------------

  /** The head's centre is within the body's horizontal span and its lower bound reaches the body. */
  predicate HeadTouches(head: Body, b: Bounds)
    ensures HeadTouches(head, b) <==>
      b.min.x <= head.position.x <= b.max.x && head.bounds.max.y >= MinReal(b.min.y, b.max.y)
  {
    && head.position.x >= b.min.x
    && head.position.x <= b.max.x
    && (head.bounds.max.y >= b.min.y || head.bounds.max.y >= b.max.y)
  }

  /** For a well-formed box the second disjunct adds nothing. */
  lemma HeadTouchesWellFormed(head: Body, b: Bounds)
    requires b.min.y <= b.max.y
    ensures HeadTouches(head, b) <==>
      b.min.x <= head.position.x <= b.max.x && head.bounds.max.y >= b.min.y
  {
  }

  /** The number of terrain bodies among `bs` the head touches. */
  function SmashCount(head: Body, bs: seq<Bounds>): (n: nat)
    ensures n <= |bs|
    ensures n > 0 <==> exists k :: 0 <= k < |bs| && HeadTouches(head, bs[k])
  {
    if bs == [] then 0
    else
      var init := bs[..|bs| - 1];
      assert forall k :: 0 <= k < |init| ==> init[k] == bs[k];
      SmashCount(head, init) + (if HeadTouches(head, bs[|bs| - 1]) then 1 else 0)
  }

  // ---------------------------------------------------------------------------
  // Eviction of terrain bodies as written
  // ---------------------------------------------------------------------------

  /**
   * The eviction loop as written: `forEach` walks the children by index while
   * each destroyed child is detached from that same list, so the child that
   * moves into the freed slot is never visited. `i` is the next index visited.
   */
  function ForEachEvict(live: seq<Segment>, minX: seq<real>, i: nat, edge: real): (r: seq<Segment>)
    requires |minX| == |live|
    ensures |r| <= |live|
    ensures forall k :: 0 <= k < |live| && minX[k] > edge ==> live[k] in r
    decreases |live| - i
  {
    if i >= |live| then live
    else if minX[i] <= edge then
      var live' := live[..i] + live[i + 1..];
      var minX' := minX[..i] + minX[i + 1..];
      assert forall k :: 0 <= k < i ==> live'[k] == live[k] && minX'[k] == minX[k];
      assert forall k :: i < k < |live| ==> live'[k - 1] == live[k] && minX'[k - 1] == minX[k];
      ForEachEvict(live', minX', i + 1, edge)
    else ForEachEvict(live, minX, i + 1, edge)
  }

  /**
   * Two adjacent bodies both left of the new edge: the loop as written keeps
   * the second, the intended filter keeps neither.
   */
  lemma ForEachEvictSkipsNeighbour(a: Segment, b: Segment)
    ensures ForEachEvict([a, b], [0.0, 10.0], 0, 100.0) == [b]
    ensures KeptBodies([a, b], [0.0, 10.0], 100.0) == []
  {
    assert [a, b][..0] + [a, b][1..] == [b];
    assert [0.0, 10.0][..0] + [0.0, 10.0][1..] == [10.0];
  }
}
