/**
 * The `splat` kernel: injects density and velocity around a position.
 *
 * With radius 0 the kernel returns before storing anything. Otherwise every
 * interior cell copies its density and velocity from the read textures to the
 * write textures, adding f * amount and f * velocity when its distance to the
 * position is below the radius, where f = 1 - dist / radius.
 *
 * `length` (the WGSL builtin) is a parameter; the lemmas that need its
 * meaning say so.
 */
module SplatModule {
  import opened Textures
  import opened Division

  /** The WGSL `length` of a vector. */
  type Length = Vec2 -> real

  /**
   * The properties of the Euclidean norm the splat lemmas rely on: it is
   * never negative, and it is zero exactly at the zero vector.
   */
  ghost predicate IsNorm(length: Length) {
    forall v: Vec2 {:trigger length(v)} :: length(v) >= 0.0 && (length(v) == 0.0 <==> v == Zero2)
  }

  /** The linear falloff 1 - dist / radius. */
  function Falloff(dist: real, radius: real): real
    requires radius != 0.0
  {
    1.0 - dist / radius
  }

  /** The distance from interior cell (x, y) to the splat position. */
  function Distance(length: Length, position: Vec2, x: nat, y: nat): real {
    length(Sub(Vec2(x as real, y as real), position))
  }

  /** The density and velocity a cell stores, given what it read. */
  function SplatTexel(dist: real, radius: real, amount: real, impulse: Vec2, density: real, velocity: Vec2): (real, Vec2)
    requires radius != 0.0
  {
    if dist < radius then
      var f := Falloff(dist, radius);
      (density + f * amount, Add(velocity, Scale(f, impulse)))
    else
      (density, velocity)
  }

  /** The density stored at interior cell (x, y). */
  function SplatDensityCell(n: nat, position: Vec2, impulse: Vec2, radius: real, amount: real, length: Length,
                            densityG: Grid, velocityG: Grid, x: nat, y: nat): real
    requires radius != 0.0
    requires IsGrid(densityG, n) && IsGrid(velocityG, n) && Interior(n, x, y)
  {
    SplatTexel(Distance(length, position, x, y), radius, amount, impulse, densityG[y][x].x, velocityG[y][x]).0
  }

  /** The velocity stored at interior cell (x, y). */
  function SplatVelocityCell(n: nat, position: Vec2, impulse: Vec2, radius: real, amount: real, length: Length,
                             densityG: Grid, velocityG: Grid, x: nat, y: nat): Vec2
    requires radius != 0.0
    requires IsGrid(densityG, n) && IsGrid(velocityG, n) && Interior(n, x, y)
  {
    SplatTexel(Distance(length, position, x, y), radius, amount, impulse, densityG[y][x].x, velocityG[y][x]).1
  }

  function SplatDensityField(n: nat, position: Vec2, impulse: Vec2, radius: real, amount: real, length: Length,
                             densityG: Grid, velocityG: Grid, orig: Grid): (g: Grid)
    requires radius != 0.0
    requires IsGrid(densityG, n) && IsGrid(velocityG, n) && IsGrid(orig, n)
    ensures IsGrid(g, n)
    ensures forall y, x :: 0 <= y < n + 2 && 0 <= x < n + 2 && !Interior(n, x, y) ==> g[y][x] == orig[y][x]
  {
    seq(n + 2, y requires 0 <= y < n + 2 =>
      seq(n + 2, x requires 0 <= x < n + 2 =>
        if Interior(n, x, y) then
          Vec2(SplatDensityCell(n, position, impulse, radius, amount, length, densityG, velocityG, x, y), 0.0)
        else orig[y][x]))
  }

  function SplatVelocityField(n: nat, position: Vec2, impulse: Vec2, radius: real, amount: real, length: Length,
                              densityG: Grid, velocityG: Grid, orig: Grid): (g: Grid)
    requires radius != 0.0
    requires IsGrid(densityG, n) && IsGrid(velocityG, n) && IsGrid(orig, n)
    ensures IsGrid(g, n)
    ensures forall y, x :: 0 <= y < n + 2 && 0 <= x < n + 2 && !Interior(n, x, y) ==> g[y][x] == orig[y][x]
  {
    seq(n + 2, y requires 0 <= y < n + 2 =>
      seq(n + 2, x requires 0 <= x < n + 2 =>
        if Interior(n, x, y) then
          SplatVelocityCell(n, position, impulse, radius, amount, length, densityG, velocityG, x, y)
        else orig[y][x]))
  }

  /** The density write texture is r32float: a dispatch keeps it single-channel. */
  lemma SplatDensityFieldSingleChannel(n: nat, position: Vec2, impulse: Vec2, radius: real, amount: real,
                                       length: Length, densityG: Grid, velocityG: Grid, orig: Grid)
    requires radius != 0.0
    requires IsGrid(densityG, n) && IsGrid(velocityG, n) && IsGrid(orig, n) && SingleChannel(orig)
    ensures SingleChannel(SplatDensityField(n, position, impulse, radius, amount, length, densityG, velocityG, orig))
  {
  }

  /** Inside a positive radius the falloff lies in (0, 1], and it is 1 exactly at distance 0. */
  lemma FalloffInUnitInterval(dist: real, radius: real)
    requires radius > 0.0 && 0.0 <= dist < radius
    ensures 0.0 < Falloff(dist, radius) <= 1.0
    ensures Falloff(dist, radius) == 1.0 <==> dist == 0.0
  {
    DivideMonotone(dist, radius, radius);
    assert radius / radius == 1.0;
    assert dist / radius == 0.0 ==> dist == 0.0 by {
      assert dist / radius * radius == dist;
    }
  }

  /** A cell at or beyond the radius keeps its density and velocity. */
  lemma FarCellUnchanged(dist: real, radius: real, amount: real, impulse: Vec2, density: real, velocity: Vec2)
    requires radius != 0.0 && dist >= radius
    ensures SplatTexel(dist, radius, amount, impulse, density, velocity) == (density, velocity)
  {
  }

  /** With a non-negative amount and a non-negative distance, density never decreases. */
  lemma DensityNeverDecreases(dist: real, radius: real, amount: real, impulse: Vec2, density: real, velocity: Vec2)
    requires radius != 0.0 && amount >= 0.0 && dist >= 0.0
    ensures SplatTexel(dist, radius, amount, impulse, density, velocity).0 >= density
  {
    if dist < radius {
      FalloffInUnitInterval(dist, radius);
    }
  }

  /**
   * The cell at the splat position receives the full `amount` and the full
   * impulse, and no cell receives more than `amount` (for amount >= 0).
   */
  lemma CentreReceivesFullAmount(length: Length, position: Vec2, radius: real, amount: real, impulse: Vec2,
                                 density: real, velocity: Vec2, x: nat, y: nat)
    requires IsNorm(length) && radius > 0.0 && amount >= 0.0
    ensures Vec2(x as real, y as real) == position ==>
      SplatTexel(Distance(length, position, x, y), radius, amount, impulse, density, velocity)
        == (density + amount, Add(velocity, impulse))
    ensures SplatTexel(Distance(length, position, x, y), radius, amount, impulse, density, velocity).0
      <= density + amount
  {
    var dist := Distance(length, position, x, y);
    var d := Sub(Vec2(x as real, y as real), position);
    assert dist == length(d) && dist >= 0.0;
    if Vec2(x as real, y as real) == position {
      assert d == Zero2;
      assert Falloff(dist, radius) == 1.0;
      assert Scale(1.0, impulse) == impulse;
    }
    if dist < radius {
      FalloffInUnitInterval(dist, radius);
      var f := Falloff(dist, radius);
      assert f * amount <= amount;
    }
  }

  /**
   * One dispatch of `splat`: reads the density and velocity read textures
   * (`densityG`, `velocityG`) and turns the density and velocity write
   * textures from `dOrig` and `vOrig` into `dWritten` and `vWritten`.
   * Radius 0 stores nothing; otherwise the write textures receive the
   * splatted fields.
   */
  method Splat(n: nat, position: Vec2, impulse: Vec2, radius: real, amount: real, length: Length,
               densityG: Grid, velocityG: Grid, dOrig: Grid, vOrig: Grid) returns (dWritten: Grid, vWritten: Grid)
    requires IsGrid(densityG, n) && IsGrid(velocityG, n) && IsGrid(dOrig, n) && IsGrid(vOrig, n)
    ensures radius == 0.0 ==> dWritten == dOrig && vWritten == vOrig
    ensures radius != 0.0 ==>
      && dWritten == SplatDensityField(n, position, impulse, radius, amount, length, densityG, velocityG, dOrig)
      && vWritten == SplatVelocityField(n, position, impulse, radius, amount, length, densityG, velocityG, vOrig)
  {
    dWritten, vWritten := dOrig, vOrig;
    if radius == 0.0 {
      return;
    }
    ghost var dTarget := SplatDensityField(n, position, impulse, radius, amount, length, densityG, velocityG, dOrig);
    ghost var vTarget := SplatVelocityField(n, position, impulse, radius, amount, length, densityG, velocityG, vOrig);
    var y := 0;
    while y < n + 2
      invariant 0 <= y <= n + 2
      invariant IsGrid(dWritten, n) && IsGrid(vWritten, n)
      invariant FilledUpTo(dWritten, dTarget, dOrig, n, 0, y)
      invariant FilledUpTo(vWritten, vTarget, vOrig, n, 0, y)
    {
      var x := 0;
      while x < n + 2
        invariant 0 <= x <= n + 2
        invariant IsGrid(dWritten, n) && IsGrid(vWritten, n)
        invariant FilledUpTo(dWritten, dTarget, dOrig, n, x, y)
        invariant FilledUpTo(vWritten, vTarget, vOrig, n, x, y)
      {
        if Interior(n, x, y) {
          var density := SplatDensityCell(n, position, impulse, radius, amount, length, densityG, velocityG, x, y);
          var velocity := SplatVelocityCell(n, position, impulse, radius, amount, length, densityG, velocityG, x, y);
          dWritten := dWritten[y := dWritten[y][x := Vec2(density, 0.0)]];
          vWritten := vWritten[y := vWritten[y][x := velocity]];
        }
        x := x + 1;
      }
      FilledNextRow(dWritten, dTarget, dOrig, n, y);
      FilledNextRow(vWritten, vTarget, vOrig, n, y);
      y := y + 1;
    }
    FilledAll(dWritten, dTarget, dOrig, n);
    FilledAll(vWritten, vTarget, vOrig, n);
  }
}
