/**
 * The initial density and velocity data the renderer uploads.
 *
 * Both loops walk the interior cells column by column (x outer, y inner)
 * and mark the cells whose distance to the grid centre (N + 2) / 2 is below
 * 20: density 1, velocity (1, 0). Everything else stays at the zero the
 * typed array starts with. The upload (`writeTexture`) reads row y of the
 * texture from `bytesPerRow` bytes further into the array per row.
 */
module Seeding {
  import opened Textures

  /** The seeded disk has radius 20 cells. */
  const SeedRadius: real := 20.0

  /** Index of cell (x, y) in a row-major array of (n + 2) * (n + 2) cells. */
  function Idx(n: nat, x: nat, y: nat): (i: nat)
    ensures x < n + 2 && y < n + 2 ==> i < (n + 2) * (n + 2)
  {
    if x < n + 2 && y < n + 2 then
      MulMonotone(y, n + 1, n + 2);
      y * (n + 2) + x
    else
      y * (n + 2) + x
  }

  /** The cell an index stands for: the inverse of `Idx`. */
  function CellX(n: nat, i: nat): nat { i % (n + 2) }
  function CellY(n: nat, i: nat): nat { i / (n + 2) }

  lemma MulMonotone(a: nat, b: nat, k: nat)
    requires a <= b
    ensures a * k <= b * k
  {
  }

  /** Two cells of the padded grid never share an index. */
  lemma IdxInjective(n: nat, x1: nat, y1: nat, x2: nat, y2: nat)
    requires x1 < n + 2 && x2 < n + 2 && Idx(n, x1, y1) == Idx(n, x2, y2)
    ensures x1 == x2 && y1 == y2
  {
    if y1 < y2 {
      RowsApart(n, x1, y1, x2, y2);
      assert false;
    }
    if y2 < y1 {
      RowsApart(n, x2, y2, x1, y1);
      assert false;
    }
  }

  /** A cell of an earlier row has a smaller index. */
  lemma RowsApart(n: nat, x1: nat, y1: nat, x2: nat, y2: nat)
    requires x1 < n + 2 && y1 < y2
    ensures Idx(n, x1, y1) < Idx(n, x2, y2)
  {
    var k := n + 2;
    assert (y1 + 1) * k == y1 * k + k;
    MulMonotone(y1 + 1, y2, k);
  }

  lemma DivMod(i: nat, k: nat)
    requires k > 0
    ensures i == (i / k) * k + i % k && i % k < k
  {
  }

  /** `CellX`, `CellY` undo `Idx`. */
  lemma IdxRoundTrip(n: nat, x: nat, y: nat)
    requires x < n + 2
    ensures CellX(n, Idx(n, x, y)) == x && CellY(n, Idx(n, x, y)) == y
  {
    var i := Idx(n, x, y);
    DivMod(i, n + 2);
    IdxInjective(n, x, y, i % (n + 2), i / (n + 2));
  }

  /** Every index below (n + 2) * (n + 2) is the index of a cell of the padded grid. */
  lemma IdxOnto(n: nat, i: nat)
    requires i < (n + 2) * (n + 2)
    ensures CellX(n, i) < n + 2 && CellY(n, i) < n + 2
    ensures Idx(n, CellX(n, i), CellY(n, i)) == i
  {
    var k := n + 2;
    DivMod(i, k);
    if i / k >= k {
      MulMonotone(k, i / k, k);
      assert false;
    }
  }

  /**
   * Cell (x, y) is seeded: it is interior and its distance to the centre is
   * below 20. Comparing squares is comparing distances, both being non-negative.
   */
  predicate InSeedDisk(n: nat, x: nat, y: nat) {
    var centre := ((n + 2) as real) / 2.0;
    var dx := x as real - centre;
    var dy := y as real - centre;
    Interior(n, x, y) && dx * dx + dy * dy < SeedRadius * SeedRadius
  }

  /** The texel grid the upload is meant to produce: 1 in the disk's first channel, 0 elsewhere. */
  function SeedGrid(n: nat): (g: Grid)
    ensures IsGrid(g, n)
  {
    seq(n + 2, y requires 0 <= y < n + 2 =>
      seq(n + 2, x requires 0 <= x < n + 2 => if InSeedDisk(n, x, y) then Vec2(1.0, 0.0) else Zero2))
  }

  /** Cell (cx, cy) comes before (x, y) in the loops' column-by-column order. */
  predicate Visited(cx: nat, cy: nat, x: nat, y: nat) {
    cx < x || (cx == x && cy < y)
  }

  /** Bytes per row the upload declares: 4-byte floats, `channels` per texel, n + 2 texels. */
  function BytesPerRow(n: nat, channels: nat): nat {
    4 * (n + 2) * channels
  }

  /** Offset, in floats, of the first channel of texel (x, y) in an upload with the given row pitch. */
  function TexelOffset(bytesPerRow: nat, channels: nat, x: nat, y: nat): nat {
    y * (bytesPerRow / 4) + x * channels
  }

  /** The row pitch the renderer declares places texel (x, y) where the seeding loop put cell Idx(x, y). */
  lemma UploadMatchesSeedLayout(n: nat, channels: nat, x: nat, y: nat)
    ensures TexelOffset(BytesPerRow(n, channels), channels, x, y) == channels * Idx(n, x, y)
  {
    assert BytesPerRow(n, channels) / 4 == (n + 2) * channels;
    calc {
      TexelOffset(BytesPerRow(n, channels), channels, x, y);
      y * ((n + 2) * channels) + x * channels;
      { assert y * ((n + 2) * channels) == channels * (y * (n + 2)); }
      channels * (y * (n + 2)) + channels * x;
      channels * Idx(n, x, y);
    }
  }

  /** The grid a one-channel (r32float) upload of `data` produces, reading each texel at the declared row pitch. */
  function UnpackR(data: seq<real>, n: nat): (g: Grid)
    requires |data| == (n + 2) * (n + 2)
    ensures IsGrid(g, n)
  {
    seq(n + 2, y requires 0 <= y < n + 2 =>
      seq(n + 2, x requires 0 <= x < n + 2 =>
        UploadMatchesSeedLayout(n, 1, x, y);
        Vec2(data[TexelOffset(BytesPerRow(n, 1), 1, x, y)], 0.0)))
  }

  /** The grid a two-channel (rg32float) upload of `data` produces, reading each texel at the declared row pitch. */
  function UnpackRG(data: seq<real>, n: nat): (g: Grid)
    requires |data| == 2 * ((n + 2) * (n + 2))
    ensures IsGrid(g, n)
  {
    seq(n + 2, y requires 0 <= y < n + 2 =>
      seq(n + 2, x requires 0 <= x < n + 2 =>
        UploadMatchesSeedLayout(n, 2, x, y);
        var offset := TexelOffset(BytesPerRow(n, 2), 2, x, y);
        Vec2(data[offset], data[offset + 1])))
  }

  /** What the seeding loops leave at cell (x, y) when they have visited the cells before (vx, vy). */
  function Seeded(n: nat, x: nat, y: nat, vx: nat, vy: nat): real {
    if Visited(x, y, vx, vy) && InSeedDisk(n, x, y) then 1.0 else 0.0
  }

  /** The density data after the loops have visited the cells before (vx, vy). */
  ghost predicate SeededCells(data: seq<real>, n: nat, vx: nat, vy: nat)
    requires |data| == (n + 2) * (n + 2)
  {
    forall cy, cx :: 0 <= cy < n + 2 && 0 <= cx < n + 2 ==>
      data[Idx(n, cx, cy)] == Seeded(n, cx, cy, vx, vy)
  }

  /** One inner-loop step of the density seeding; `hit` is the disk test the loop evaluates. */
  lemma SeedCellStep(n: nat, before: seq<real>, after: seq<real>, x: nat, y: nat, hit: bool)
    requires 1 <= x <= n && 1 <= y <= n && hit == InSeedDisk(n, x, y)
    requires |before| == (n + 2) * (n + 2) && SeededCells(before, n, x, y)
    requires |after| == |before|
    requires hit ==> after == before[Idx(n, x, y) := 1.0]
    requires !hit ==> after == before
    ensures SeededCells(after, n, x, y + 1)
  {
    var i := Idx(n, x, y);
    forall cy, cx | 0 <= cy < n + 2 && 0 <= cx < n + 2
      ensures after[Idx(n, cx, cy)] == Seeded(n, cx, cy, x, y + 1)
    {
      if Idx(n, cx, cy) == i {
        IdxInjective(n, cx, cy, x, y);
      }
    }
  }

  /** The density seeding loop. */
  method SeedDensity(n: nat) returns (data: array<real>)
    ensures fresh(data) && data.Length == (n + 2) * (n + 2)
    ensures forall y, x :: 0 <= y < n + 2 && 0 <= x < n + 2 ==>
      data[Idx(n, x, y)] == if InSeedDisk(n, x, y) then 1.0 else 0.0
    ensures UnpackR(data[..], n) == SeedGrid(n)
  {
    data := new real[(n + 2) * (n + 2)](_ => 0.0);
    var x := 1;
    while x <= n
      invariant 1 <= x <= n + 1
      invariant SeededCells(data[..], n, x, 0)
    {
      SeedDensityColumn(n, x, data);
      x := x + 1;
    }
    SeedDensityGrid(n, data[..]);
  }

  /** The inner loop of the density seeding: column x, rows 1 to n. */
  method SeedDensityColumn(n: nat, x: nat, data: array<real>)
    requires 1 <= x <= n && data.Length == (n + 2) * (n + 2)
    requires SeededCells(data[..], n, x, 0)
    modifies data
    ensures SeededCells(data[..], n, x + 1, 0)
  {
    var y := 1;
    while y <= n
      invariant 1 <= y <= n + 1
      invariant SeededCells(data[..], n, x, y)
    {
      var centre := ((n + 2) as real) / 2.0;
      var dx := x as real - centre;
      var dy := y as real - centre;
      ghost var before := data[..];
      var hit := dx * dx + dy * dy < SeedRadius * SeedRadius;
      if hit {
        data[Idx(n, x, y)] := 1.0;
      }
      SeedCellStep(n, before, data[..], x, y, hit);
      y := y + 1;
    }
  }

  lemma SeedDensityGrid(n: nat, data: seq<real>)
    requires |data| == (n + 2) * (n + 2) && SeededCells(data, n, n + 1, 0)
    ensures UnpackR(data, n) == SeedGrid(n)
  {
    var g, s := UnpackR(data, n), SeedGrid(n);
    forall y | 0 <= y < n + 2 ensures g[y] == s[y] {
      forall x | 0 <= x < n + 2 ensures g[y][x] == s[y][x] {
        UploadMatchesSeedLayout(n, 1, x, y);
      }
    }
  }

  /** The velocity data after the loops have visited the cells before (vx, vy). */
  ghost predicate SeededPairs(data: seq<real>, n: nat, vx: nat, vy: nat)
    requires |data| == 2 * ((n + 2) * (n + 2))
  {
    forall cy, cx :: 0 <= cy < n + 2 && 0 <= cx < n + 2 ==>
      data[2 * Idx(n, cx, cy)] == Seeded(n, cx, cy, vx, vy) && data[2 * Idx(n, cx, cy) + 1] == 0.0
  }

  /** One inner-loop step of the velocity seeding; `hit` is the disk test the loop evaluates. */
  lemma SeedPairStep(n: nat, before: seq<real>, after: seq<real>, x: nat, y: nat, hit: bool)
    requires 1 <= x <= n && 1 <= y <= n && hit == InSeedDisk(n, x, y)
    requires |before| == 2 * ((n + 2) * (n + 2)) && SeededPairs(before, n, x, y)
    requires |after| == |before|
    requires hit ==> after == before[2 * Idx(n, x, y) := 1.0][2 * Idx(n, x, y) + 1 := 0.0]
    requires !hit ==> after == before
    ensures SeededPairs(after, n, x, y + 1)
  {
    var i := Idx(n, x, y);
    forall cy, cx | 0 <= cy < n + 2 && 0 <= cx < n + 2
      ensures after[2 * Idx(n, cx, cy)] == Seeded(n, cx, cy, x, y + 1)
      ensures after[2 * Idx(n, cx, cy) + 1] == 0.0
    {
      var j := Idx(n, cx, cy);
      if j == i {
        IdxInjective(n, cx, cy, x, y);
      }
    }
  }

  /** The velocity seeding loop: (1, 0) in the disk, interleaved x, y per cell. */
  method SeedVelocity(n: nat) returns (data: array<real>)
    ensures fresh(data) && data.Length == 2 * ((n + 2) * (n + 2))
    ensures forall y, x :: 0 <= y < n + 2 && 0 <= x < n + 2 ==>
      data[2 * Idx(n, x, y)] == (if InSeedDisk(n, x, y) then 1.0 else 0.0) && data[2 * Idx(n, x, y) + 1] == 0.0
    ensures UnpackRG(data[..], n) == SeedGrid(n)
  {
    data := new real[2 * ((n + 2) * (n + 2))](_ => 0.0);
    var x := 1;
    while x <= n
      invariant 1 <= x <= n + 1
      invariant SeededPairs(data[..], n, x, 0)
    {
      SeedVelocityColumn(n, x, data);
      x := x + 1;
    }
    SeedVelocityGrid(n, data[..]);
  }

  /** The inner loop of the velocity seeding: column x, rows 1 to n. */
  method SeedVelocityColumn(n: nat, x: nat, data: array<real>)
    requires 1 <= x <= n && data.Length == 2 * ((n + 2) * (n + 2))
    requires SeededPairs(data[..], n, x, 0)
    modifies data
    ensures SeededPairs(data[..], n, x + 1, 0)
  {
    var y := 1;
    while y <= n
      invariant 1 <= y <= n + 1
      invariant SeededPairs(data[..], n, x, y)
    {
      var centre := ((n + 2) as real) / 2.0;
      var dx := x as real - centre;
      var dy := y as real - centre;
      ghost var before := data[..];
      var i := Idx(n, x, y);
      var hit := dx * dx + dy * dy < SeedRadius * SeedRadius;
      if hit {
        data[2 * i + 0] := 1.0;
        data[2 * i + 1] := 0.0;
      }
      SeedPairStep(n, before, data[..], x, y, hit);
      y := y + 1;
    }
  }

  lemma SeedVelocityGrid(n: nat, data: seq<real>)
    requires |data| == 2 * ((n + 2) * (n + 2)) && SeededPairs(data, n, n + 1, 0)
    ensures UnpackRG(data, n) == SeedGrid(n)
  {
    var g, s := UnpackRG(data, n), SeedGrid(n);
    forall y | 0 <= y < n + 2 ensures g[y] == s[y] {
      forall x | 0 <= x < n + 2 ensures g[y][x] == s[y][x] {
        UploadMatchesSeedLayout(n, 2, x, y);
      }
    }
  }

  /** Only interior cells are seeded, so the border of both fields starts at zero. */
  lemma SeedBorderIsZero(n: nat, x: nat, y: nat)
    requires x < n + 2 && y < n + 2 && !Interior(n, x, y)
    ensures SeedGrid(n)[y][x] == Zero2
  {
  }

  /** The centre cell of the interior is seeded whenever the grid has one (n >= 1). */
  lemma CentreIsSeeded(n: nat)
    requires n >= 1 && n % 2 == 0
    ensures InSeedDisk(n, (n + 2) / 2, (n + 2) / 2)
    ensures SeedGrid(n)[(n + 2) / 2][(n + 2) / 2] == Vec2(1.0, 0.0)
  {
    var c := (n + 2) / 2;
    assert (c as real) == ((n + 2) as real) / 2.0;
  }
}
