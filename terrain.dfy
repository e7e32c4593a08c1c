/**
 * The Terrain component: the live window of height samples, its collision
 * bodies and the walls that bound the playable strip, streamed to the right
 * one block at a time as the car advances.
 */
module TerrainComponent {
  import opened Constants
  import opened Engine
  import opened TerrainModel

  /** Width of the static rectangles used as the left and right walls. */
  const WALL_THICKNESS: real := 10.0

  class Terrain {
    /** The live window is `[leftEdge, rightEdge)`. */
    var leftEdge: real
    var rightEdge: real
    /** The committed height samples, left to right. */
    var points: seq<Point>
    /** The terrain collision bodies, in the order they were added. */
    var bodies: seq<Segment>
    /** Every place a fuel canister component was added to the owner. */
    var canisters: seq<Point>
    /** Horizontal centres of the wall bodies. */
    var leftWallX: real
    var rightWallX: real

    /**
     * The window is `MAP_SIZE` wide and holds one sample every `MAP_UNIT` from
     * its left edge, every height is between `SCREEN_HEIGHT - MAX_TERRAIN_HEIGHT`
     * and `SCREEN_HEIGHT`, and the walls sit at the left edge and one block
     * before the right edge.
     */
    ghost predicate Valid()
      reads this
    {
      && rightEdge == leftEdge + MAP_SIZE
      && |points| == WINDOW_POINTS
      && OnGrid(points, leftEdge)
      && HeightsWithin(points, SCREEN_HEIGHT - MAX_TERRAIN_HEIGHT, SCREEN_HEIGHT)
      && leftWallX == leftEdge
      && rightWallX == rightEdge - MAP_BLOCK_SIZE
    }

    /** `onInit`: set up the window and the walls, then generate and build the first terrain. */
    constructor (noise: seq<real>, draw: CanisterDraw)
      requires |noise| == WINDOW_POINTS && AllRandom(noise) && IsRandom(draw.index)
      ensures Valid()
      ensures leftEdge == 0.0 && rightEdge == MAP_SIZE
      ensures points == Smoothed([], RawBlock(0.0, MAX_TERRAIN_HEIGHT, noise))
      ensures bodies == SegmentsOf(points)
      ensures canisters == OptionToSeq(CanisterSpot(points, draw))
    {
      leftEdge := 0.0;
      rightEdge := MAP_SIZE;
      points := [];
      bodies := [];
      canisters := [];
      leftWallX := 0.0;
      rightWallX := MAP_SIZE - MAP_BLOCK_SIZE;
      new;
      SpanCounts(0.0);
      GeneratedBlockShape([], 0.0, MAX_TERRAIN_HEIGHT, noise);
      var generated := GeneratePoints(leftEdge, rightEdge, MAX_TERRAIN_HEIGHT, noise);
      points := generated;
      CreateTerrain(points, draw);
    }

    /** The left side of the right wall, which the car has to reach to stream more terrain. */
    function RightWallLeft(): real
      reads this
    {
      rightWallX - WALL_THICKNESS / 2.0
    }

    /**
     * CAR_MOVED: once the car's right side reaches the right wall, run one
     * streaming step.
     */
    method OnCarMoved(carBounds: Bounds, noise: seq<real>, draw: CanisterDraw, bodyMinX: seq<real>)
      returns (streamed: bool)
      requires Valid()
      requires |noise| == BLOCK_POINTS && AllRandom(noise) && IsRandom(draw.index)
      requires |bodyMinX| == |bodies|
      modifies this
      ensures Valid()
      ensures streamed <==> carBounds.max.x >= old(RightWallLeft())
      ensures streamed ==>
        && leftEdge == old(leftEdge) + MAP_BLOCK_SIZE
        && rightEdge == old(rightEdge) + MAP_BLOCK_SIZE
        && leftWallX == old(leftWallX) + MAP_BLOCK_SIZE
        && rightWallX == old(rightWallX) + MAP_BLOCK_SIZE
        && var kept := Survivors(old(points), leftEdge);
           var block := Smoothed(old(points), RawBlock(old(rightEdge), MAX_TERRAIN_HEIGHT, noise));
           && kept == old(points)[BLOCK_POINTS..]
           && points == kept + block
           && block[0].x == old(rightEdge)
           && bodies == KeptBodies(old(bodies), bodyMinX, leftEdge) + SegmentsOf([kept[|kept| - 1]] + block)
           && canisters == old(canisters) + OptionToSeq(CanisterSpot([kept[|kept| - 1]] + block, draw))
      ensures !streamed ==> leftEdge == old(leftEdge) && points == old(points) && bodies == old(bodies)
                            && canisters == old(canisters) && rightWallX == old(rightWallX)
    {
      streamed := carBounds.max.x >= RightWallLeft();
      if streamed {
        IncreaseTerrain(noise, draw, bodyMinX);
      }
    }

    /**
     * HEAD_MAY_SMASH: one DRIVER_DIED for every terrain body that the head
     * touches. `bodyBounds[k]` is the box the physics engine reports for
     * `bodies[k]`.
     */
    method OnHeadMaySmash(head: Body, bodyBounds: seq<Bounds>) returns (sent: seq<Msg>)
      requires |bodyBounds| == |bodies|
      ensures |sent| == SmashCount(head, bodyBounds)
      ensures forall m :: m in sent ==> m == DriverDied
      ensures |sent| > 0 <==> exists k :: 0 <= k < |bodyBounds| && HeadTouches(head, bodyBounds[k])
    {
      sent := [];
      var i := 0;
      while i < |bodyBounds|
        invariant 0 <= i <= |bodyBounds|
        invariant |sent| == SmashCount(head, bodyBounds[..i])
        invariant forall m :: m in sent ==> m == DriverDied
      {
        assert bodyBounds[..i + 1][..i] == bodyBounds[..i];
        if HeadTouches(head, bodyBounds[i]) {
          sent := sent + [DriverDied];
        }
        i := i + 1;
      }
      assert bodyBounds[..i] == bodyBounds;
    }

    /**
     * One streaming step: move the window one block to the right, drop the
     * samples and bodies left of the new left edge, append a freshly generated
     * block, build its bodies from the block with the last surviving sample in
     * front, maybe place a canister on that batch, and move both walls.
     */
    method IncreaseTerrain(noise: seq<real>, draw: CanisterDraw, bodyMinX: seq<real>)
      requires Valid()
      requires |noise| == BLOCK_POINTS && AllRandom(noise) && IsRandom(draw.index)
      requires |bodyMinX| == |bodies|
      modifies this
      ensures Valid()
      ensures leftEdge == old(leftEdge) + MAP_BLOCK_SIZE
      ensures rightEdge == old(rightEdge) + MAP_BLOCK_SIZE
      ensures rightEdge - leftEdge == MAP_SIZE
      ensures leftWallX == old(leftWallX) + MAP_BLOCK_SIZE
      ensures rightWallX == old(rightWallX) + MAP_BLOCK_SIZE
      ensures var kept := Survivors(old(points), leftEdge);
              var block := Smoothed(old(points), RawBlock(old(rightEdge), MAX_TERRAIN_HEIGHT, noise));
              && kept == old(points)[BLOCK_POINTS..]
              && points == kept + block
              && block[0].x == old(rightEdge)
              && bodies == KeptBodies(old(bodies), bodyMinX, leftEdge) + SegmentsOf([kept[|kept| - 1]] + block)
              && canisters == old(canisters) + OptionToSeq(CanisterSpot([kept[|kept| - 1]] + block, draw))
    {
      StreamStep(points, leftEdge, rightEdge, noise);

      // Evict the samples left of the new edge
      leftEdge := leftEdge + MAP_BLOCK_SIZE;
      var newLeftBorder := leftEdge;
      var newPoints := Survivors(points, newLeftBorder);

      // Evict the bodies at or left of the new edge
      bodies := KeptBodies(bodies, bodyMinX, newLeftBorder);

      // Append a block generated against the samples as they were before eviction
      var lastPoint := newPoints[|newPoints| - 1];
      var generated := GeneratePoints(rightEdge, rightEdge + MAP_BLOCK_SIZE, MAX_TERRAIN_HEIGHT, noise);
      newPoints := newPoints + generated;
      points := newPoints;
      rightEdge := rightEdge + MAP_BLOCK_SIZE;
      var batch := [lastPoint] + generated;

      // Build the batch: the last kept sample followed by the new block
      CreateTerrain(batch, draw);

      // Shift both walls by one block
      rightWallX := rightWallX + MAP_BLOCK_SIZE;
      leftWallX := leftWallX + MAP_BLOCK_SIZE;
    }

    /**
     * Sample one raw height per `MAP_UNIT` in `[startX, endX)`, one random
     * value each, then smooth the block three times against `points`.
     */
    method GeneratePoints(startX: real, endX: real, maxY: real, noise: seq<real>) returns (block: seq<Point>)
      requires |noise| == PointCount(startX, endX)
      ensures block == Smoothed(points, RawBlock(startX, maxY, noise))
      ensures |block| == PointCount(startX, endX) && OnGrid(block, startX)
    {
      var generated: seq<Point> := [];
      var x := startX;
      var k := 0;
      while x < endX
        invariant 0 <= k <= |noise|
        invariant x == startX + k as real * MAP_UNIT
        invariant generated == RawBlock(startX, maxY, noise[..k])
        decreases |noise| - k
      {
        PointCountGrid(startX, endX, k);
        RawBlockSnoc(startX, maxY, noise, k);
        var y := (noise[k] * maxY).Floor;
        generated := generated + [Point(x, SCREEN_HEIGHT - y as real)];
        x := x + MAP_UNIT;
        k := k + 1;
      }
      PointCountGrid(startX, endX, k);
      assert noise[..k] == noise;

      var a := new Point[|generated|](j requires 0 <= j < |generated| => generated[j]);
      for pass := 0 to SMOOTH_PASSES
        invariant a[..] == SmoothIter(points, generated, pass)
      {
        Smooth(a);
      }
      block := a[..];
      assert OnGrid(RawBlock(startX, maxY, noise), startX);
    }

    /**
     * One smoothing pass in place: left to right, each new sample's height
     * becomes the mean of the clipped window `[i - 2, i + 2)` over the
     * committed samples followed by the new ones. `points` is only read.
     */
    method Smooth(a: array<Point>)
      modifies a
      ensures a[..] == SmoothPass(points, old(a[..]))
    {
      var numNewPoints := a.Length;
      var numOldPoints := |points|;
      ghost var cur := a[..];
      var i := numOldPoints;
      while i < numOldPoints + numNewPoints
        invariant numOldPoints <= i <= numOldPoints + numNewPoints
        invariant a[..] == PassPrefix(points, cur, i - numOldPoints)
      {
        ghost var s := a[..];
        SmoothAt(a, i);
        PassPrefixNext(points, cur, i - numOldPoints, s);
        i := i + 1;
      }
    }

    /**
     * One step of a smoothing pass: the height of the new sample at flattened
     * index `i` becomes the mean of its window, read from the block as it
     * stands, including the samples this pass has already replaced.
     */
    method SmoothAt(a: array<Point>, i: int)
      requires |points| <= i < |points| + a.Length
      modifies a
      ensures a[..] == old(a[..])[i - |points| := old(a[..])[i - |points|].(y := NeighbourMean(points, old(a[..]), i))]
    {
      var numOldPoints := |points|;
      var neighboursSum, numNeighbours := SumNeighbours(a, i);
      WindowCountPositive(numOldPoints + a.Length, i);
      a[i - numOldPoints] := a[i - numOldPoints].(y := neighboursSum / numNeighbours as real);
    }

    /**
     * The inner loop of a smoothing pass: sum and count the heights at the
     * flattened indices `[i - 2, i + 2)` that exist, reading the block being
     * smoothed for new indices and `points` for committed ones.
     */
    method SumNeighbours(a: array<Point>, i: int) returns (neighboursSum: real, numNeighbours: nat)
      ensures neighboursSum == WindowSum(points, a[..], i - WINDOW_SIZE, i + WINDOW_SIZE)
      ensures numNeighbours == WindowCount(|points| + a.Length, i - WINDOW_SIZE, i + WINDOW_SIZE)
    {
      var numNewPoints := a.Length;
      var numOldPoints := |points|;
      neighboursSum := 0.0;
      numNeighbours := 0;
      for j := i - WINDOW_SIZE to i + WINDOW_SIZE
        invariant neighboursSum == WindowSum(points, a[..], i - WINDOW_SIZE, j)
        invariant numNeighbours == WindowCount(numOldPoints + numNewPoints, i - WINDOW_SIZE, j)
      {
        if j < 0 || j >= numOldPoints + numNewPoints {
          continue;
        }
        if j >= numOldPoints {
          neighboursSum := neighboursSum + a[j - numOldPoints].y;
        } else {
          neighboursSum := neighboursSum + points[j].y;
        }
        numNeighbours := numNeighbours + 1;
      }
    }

    /** Build the collision bodies for a batch and maybe place a canister on it. */
    method CreateTerrain(batch: seq<Point>, draw: CanisterDraw)
      requires 0 < |batch| && IsRandom(draw.index)
      modifies this`bodies, this`canisters
      ensures bodies == old(bodies) + SegmentsOf(batch)
      ensures canisters == old(canisters) + OptionToSeq(CanisterSpot(batch, draw))
    {
      CreateTerrainBodies(batch);
      AddFuelCanister(batch, draw);
    }

    /** One body per sample of the batch, joining it to the sample before (the first one to itself). */
    method CreateTerrainBodies(batch: seq<Point>)
      modifies this`bodies
      ensures bodies == old(bodies) + SegmentsOf(batch)
    {
      if |batch| == 0 {
        return;
      }
      var pointPrev := batch[0];
      var i := 0;
      while i < |batch|
        invariant 0 <= i <= |batch|
        invariant bodies == old(bodies) + SegmentsOf(batch[..i])
        invariant pointPrev == batch[if i == 0 then 0 else i - 1]
      {
        var currentPoint := batch[i];
        assert batch[..i + 1][..i] == batch[..i];
        bodies := bodies + [Segment(pointPrev, currentPoint)];
        pointPrev := currentPoint;
        i := i + 1;
      }
      assert batch[..i] == batch;
    }

    /** Place a canister at a random sample of the batch when the coin is above 0.5. */
    method AddFuelCanister(batch: seq<Point>, draw: CanisterDraw)
      requires 0 < |batch| && IsRandom(draw.index)
      modifies this`canisters
      ensures canisters == old(canisters) + OptionToSeq(CanisterSpot(batch, draw))
    {
      var idx := CanisterIndex(|batch|, draw.index);
      if draw.coin > 0.5 {
        canisters := canisters + [batch[idx]];
      }
    }
  }
}
