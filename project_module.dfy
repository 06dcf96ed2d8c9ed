/**
 * The three pressure-projection kernels.
 *
 * - `projectInit` stores the velocity divergence
 *   -0.5 * (h * (vx[x+1] - vx[x-1]) + h * (vy[y+1] - vy[y-1])), h = 1/N,
 *   and 0.99 times the previous pressure (a damped restart, not a reset);
 * - `projectSolve` stores one damped Jacobi round of the pressure Poisson
 *   equation, 0.99 * (div + sum of the four pressure neighbours) / 4;
 * - `projectApply` subtracts 0.5 * (pressure gradient) / h from velocity.
 *
 * All three write interior cells only.
 */
module ProjectModule {
  import opened Textures

  /** The damping factor both `projectInit` and `projectSolve` apply to pressure. */
  const Damping: real := 0.99

  /** The grid spacing h = 1/N. */
  function Spacing(n: nat): real
    requires n >= 1
  {
    1.0 / (n as real)
  }

  /** Divergence of the velocity around interior cell (x, y), by central differences. */
  function Divergence(n: nat, velG: Grid, x: nat, y: nat): real
    requires IsGrid(velG, n) && Interior(n, x, y)
  {
    var h := Spacing(n);
    var gx := velG[y][x + 1].x - velG[y][x - 1].x;
    var gy := velG[y + 1][x].y - velG[y - 1][x].y;
    -0.5 * (h * gx + h * gy)
  }

  /** One damped Jacobi round of the pressure equation at interior cell (x, y). */
  function SolvePressure(n: nat, divG: Grid, presG: Grid, x: nat, y: nat): real
    requires IsGrid(divG, n) && IsGrid(presG, n) && Interior(n, x, y)
  {
    var p := (divG[y][x].x + presG[y][x - 1].x + presG[y][x + 1].x
                           + presG[y - 1][x].x + presG[y + 1][x].x) / 4.0;
    p * Damping
  }

  /** The velocity at interior cell (x, y) minus half the pressure gradient over h. */
  function ApplyVelocity(n: nat, velG: Grid, presG: Grid, x: nat, y: nat): Vec2
    requires IsGrid(velG, n) && IsGrid(presG, n) && Interior(n, x, y)
  {
    var h := Spacing(n);
    var gx := presG[y][x + 1].x - presG[y][x - 1].x;
    var gy := presG[y + 1][x].x - presG[y - 1][x].x;
    var v := velG[y][x];
    Vec2(v.x - 0.5 * gx / h, v.y - 0.5 * gy / h)
  }

  function DivergenceField(n: nat, velG: Grid, orig: Grid): (g: Grid)
    requires IsGrid(velG, n) && IsGrid(orig, n)
    ensures IsGrid(g, n)
    ensures forall y, x :: 0 <= y < n + 2 && 0 <= x < n + 2 && !Interior(n, x, y) ==> g[y][x] == orig[y][x]
  {
    seq(n + 2, y requires 0 <= y < n + 2 =>
      seq(n + 2, x requires 0 <= x < n + 2 =>
        if Interior(n, x, y) then Vec2(Divergence(n, velG, x, y), 0.0) else orig[y][x]))
  }

  function DampedPressureField(n: nat, presG: Grid, orig: Grid): (g: Grid)
    requires IsGrid(presG, n) && IsGrid(orig, n)
    ensures IsGrid(g, n)
    ensures forall y, x :: 0 <= y < n + 2 && 0 <= x < n + 2 && !Interior(n, x, y) ==> g[y][x] == orig[y][x]
  {
    seq(n + 2, y requires 0 <= y < n + 2 =>
      seq(n + 2, x requires 0 <= x < n + 2 =>
        if Interior(n, x, y) then Vec2(presG[y][x].x * Damping, 0.0) else orig[y][x]))
  }

  function SolveField(n: nat, divG: Grid, presG: Grid, orig: Grid): (g: Grid)
    requires IsGrid(divG, n) && IsGrid(presG, n) && IsGrid(orig, n)
    ensures IsGrid(g, n)
    ensures forall y, x :: 0 <= y < n + 2 && 0 <= x < n + 2 && !Interior(n, x, y) ==> g[y][x] == orig[y][x]
  {
    seq(n + 2, y requires 0 <= y < n + 2 =>
      seq(n + 2, x requires 0 <= x < n + 2 =>
        if Interior(n, x, y) then Vec2(SolvePressure(n, divG, presG, x, y), 0.0) else orig[y][x]))
  }

  function ApplyField(n: nat, velG: Grid, presG: Grid, orig: Grid): (g: Grid)
    requires IsGrid(velG, n) && IsGrid(presG, n) && IsGrid(orig, n)
    ensures IsGrid(g, n)
    ensures forall y, x :: 0 <= y < n + 2 && 0 <= x < n + 2 && !Interior(n, x, y) ==> g[y][x] == orig[y][x]
  {
    seq(n + 2, y requires 0 <= y < n + 2 =>
      seq(n + 2, x requires 0 <= x < n + 2 =>
        if Interior(n, x, y) then ApplyVelocity(n, velG, presG, x, y) else orig[y][x]))
  }

  /**
   * The divergence and pressure textures are r32float: `projectInit` and
   * `projectSolve` keep them single-channel.
   */
  lemma PressureFieldsSingleChannel(n: nat, velG: Grid, divG: Grid, presG: Grid, divOrig: Grid, presOrig: Grid)
    requires IsGrid(velG, n) && IsGrid(divG, n) && IsGrid(presG, n) && IsGrid(divOrig, n) && IsGrid(presOrig, n)
    requires SingleChannel(divOrig) && SingleChannel(presOrig)
    ensures SingleChannel(DivergenceField(n, velG, divOrig))
    ensures SingleChannel(DampedPressureField(n, presG, presOrig))
    ensures SingleChannel(SolveField(n, divG, presG, presOrig))
  {
  }

  /** A grid whose texels all equal `v`. */
  ghost predicate Uniform(g: Grid, v: Vec2) {
    forall y, x :: 0 <= y < |g| && 0 <= x < |g[y]| ==> g[y][x] == v
  }

  /** A spatially uniform velocity field has zero divergence. */
  lemma UniformVelocityIsDivergenceFree(n: nat, velG: Grid, v: Vec2, x: nat, y: nat)
    requires IsGrid(velG, n) && Interior(n, x, y) && Uniform(velG, v)
    ensures Divergence(n, velG, x, y) == 0.0
  {
    assert velG[y][x + 1] == v && velG[y][x - 1] == v;
    assert velG[y + 1][x] == v && velG[y - 1][x] == v;
  }

  /** Constant pressure has no gradient, so `projectApply` leaves velocity as it was. */
  lemma ConstantPressureKeepsVelocity(n: nat, velG: Grid, presG: Grid, p: Vec2, x: nat, y: nat)
    requires IsGrid(velG, n) && IsGrid(presG, n) && Interior(n, x, y) && Uniform(presG, p)
    ensures ApplyVelocity(n, velG, presG, x, y) == velG[y][x]
  {
    assert presG[y][x + 1] == p && presG[y][x - 1] == p;
    assert presG[y + 1][x] == p && presG[y - 1][x] == p;
  }

  /** `projectApply` subtracts exactly 0.5 * N * (pressure difference) from each component. */
  lemma ApplySubtractsScaledGradient(n: nat, velG: Grid, presG: Grid, x: nat, y: nat)
    requires IsGrid(velG, n) && IsGrid(presG, n) && Interior(n, x, y)
    ensures ApplyVelocity(n, velG, presG, x, y).x
      == velG[y][x].x - 0.5 * (n as real) * (presG[y][x + 1].x - presG[y][x - 1].x)
    ensures ApplyVelocity(n, velG, presG, x, y).y
      == velG[y][x].y - 0.5 * (n as real) * (presG[y + 1][x].x - presG[y - 1][x].x)
  {
    var h := Spacing(n);
    assert h * (n as real) == 1.0;
    var gx := presG[y][x + 1].x - presG[y][x - 1].x;
    var gy := presG[y + 1][x].x - presG[y - 1][x].x;
    assert gx / h == gx * (n as real) by { DivideBySpacing(n, gx); }
    assert gy / h == gy * (n as real) by { DivideBySpacing(n, gy); }
  }

  lemma DivideBySpacing(n: nat, g: real)
    requires n >= 1
    ensures g / Spacing(n) == g * (n as real)
  {
    var h := Spacing(n);
    assert h * (n as real) == 1.0;
    assert (g * (n as real)) * h == g;
  }

  /** Zero velocity and zero pressure: `projectInit` stores zero divergence and zero pressure. */
  lemma InitFieldsZero(n: nat, velG: Grid, presG: Grid, divOrig: Grid, presOrig: Grid)
    requires IsGrid(velG, n) && IsGrid(presG, n) && IsGrid(divOrig, n) && IsGrid(presOrig, n)
    requires IsZero(velG) && IsZero(presG) && IsZero(divOrig) && IsZero(presOrig)
    ensures IsZero(DivergenceField(n, velG, divOrig))
    ensures IsZero(DampedPressureField(n, presG, presOrig))
  {
    var d := DivergenceField(n, velG, divOrig);
    forall y, x | 0 <= y < |d| && 0 <= x < |d[y]| ensures d[y][x] == Zero2 {
      if Interior(n, x, y) {
        UniformVelocityIsDivergenceFree(n, velG, Zero2, x, y);
      }
    }
  }

  /** Zero divergence and zero pressure: `projectSolve` stores zero pressure. */
  lemma SolveFieldZero(n: nat, divG: Grid, presG: Grid, orig: Grid)
    requires IsGrid(divG, n) && IsGrid(presG, n) && IsGrid(orig, n)
    requires IsZero(divG) && IsZero(presG) && IsZero(orig)
    ensures IsZero(SolveField(n, divG, presG, orig))
  {
    var g := SolveField(n, divG, presG, orig);
    forall y, x | 0 <= y < |g| && 0 <= x < |g[y]| ensures g[y][x] == Zero2 {
      if Interior(n, x, y) {
        assert divG[y][x] == Zero2 && presG[y][x - 1] == Zero2 && presG[y][x + 1] == Zero2;
        assert presG[y - 1][x] == Zero2 && presG[y + 1][x] == Zero2;
      }
    }
  }

  /** Zero velocity and zero pressure: `projectApply` stores zero velocity. */
  lemma ApplyFieldZero(n: nat, velG: Grid, presG: Grid, orig: Grid)
    requires IsGrid(velG, n) && IsGrid(presG, n) && IsGrid(orig, n)
    requires IsZero(velG) && IsZero(presG) && IsZero(orig)
    ensures IsZero(ApplyField(n, velG, presG, orig))
  {
    var g := ApplyField(n, velG, presG, orig);
    forall y, x | 0 <= y < |g| && 0 <= x < |g[y]| ensures g[y][x] == Zero2 {
      if Interior(n, x, y) {
        ConstantPressureKeepsVelocity(n, velG, presG, Zero2, x, y);
      }
    }
  }

  /**
   * One dispatch of `projectInit`: reads the velocity and pressure read
   * textures (`velG`, `presG`) and turns the divergence and pressure write
   * textures from `divOrig` and `presOrig` into `divWritten` and
   * `presWritten`. The divergence read texture is bound but not used.
   */
  method ProjectInit(n: nat, velG: Grid, presG: Grid, divOrig: Grid, presOrig: Grid)
    returns (divWritten: Grid, presWritten: Grid)
    requires IsGrid(velG, n) && IsGrid(presG, n) && IsGrid(divOrig, n) && IsGrid(presOrig, n)
    ensures divWritten == DivergenceField(n, velG, divOrig)
    ensures presWritten == DampedPressureField(n, presG, presOrig)
  {
    ghost var divTarget := DivergenceField(n, velG, divOrig);
    ghost var presTarget := DampedPressureField(n, presG, presOrig);
    divWritten, presWritten := divOrig, presOrig;
    var y := 0;
    while y < n + 2
      invariant 0 <= y <= n + 2
      invariant IsGrid(divWritten, n) && IsGrid(presWritten, n)
      invariant FilledUpTo(divWritten, divTarget, divOrig, n, 0, y)
      invariant FilledUpTo(presWritten, presTarget, presOrig, n, 0, y)
    {
      var x := 0;
      while x < n + 2
        invariant 0 <= x <= n + 2
        invariant IsGrid(divWritten, n) && IsGrid(presWritten, n)
        invariant FilledUpTo(divWritten, divTarget, divOrig, n, x, y)
        invariant FilledUpTo(presWritten, presTarget, presOrig, n, x, y)
      {
        if Interior(n, x, y) {
          var divergence := Divergence(n, velG, x, y);
          var pressure := presG[y][x].x;
          divWritten := divWritten[y := divWritten[y][x := Vec2(divergence, 0.0)]];
          presWritten := presWritten[y := presWritten[y][x := Vec2(pressure * Damping, 0.0)]];
        }
        x := x + 1;
      }
      FilledNextRow(divWritten, divTarget, divOrig, n, y);
      FilledNextRow(presWritten, presTarget, presOrig, n, y);
      y := y + 1;
    }
    FilledAll(divWritten, divTarget, divOrig, n);
    FilledAll(presWritten, presTarget, presOrig, n);
  }

  /** One dispatch of `projectSolve`. */
  method ProjectSolve(n: nat, divG: Grid, presG: Grid, orig: Grid) returns (written: Grid)
    requires IsGrid(divG, n) && IsGrid(presG, n) && IsGrid(orig, n)
    ensures written == SolveField(n, divG, presG, orig)
  {
    ghost var target := SolveField(n, divG, presG, orig);
    written := orig;
    var y := 0;
    while y < n + 2
      invariant 0 <= y <= n + 2
      invariant IsGrid(written, n)
      invariant FilledUpTo(written, target, orig, n, 0, y)
    {
      var x := 0;
      while x < n + 2
        invariant 0 <= x <= n + 2
        invariant IsGrid(written, n)
        invariant FilledUpTo(written, target, orig, n, x, y)
      {
        if Interior(n, x, y) {
          var pressure := SolvePressure(n, divG, presG, x, y);
          written := written[y := written[y][x := Vec2(pressure, 0.0)]];
        }
        x := x + 1;
      }
      FilledNextRow(written, target, orig, n, y);
      y := y + 1;
    }
    FilledAll(written, target, orig, n);
  }

  /** One dispatch of `projectApply`. */
  method ProjectApply(n: nat, velG: Grid, presG: Grid, orig: Grid) returns (written: Grid)
    requires IsGrid(velG, n) && IsGrid(presG, n) && IsGrid(orig, n)
    ensures written == ApplyField(n, velG, presG, orig)
  {
    ghost var target := ApplyField(n, velG, presG, orig);
    written := orig;
    var y := 0;
    while y < n + 2
      invariant 0 <= y <= n + 2
      invariant IsGrid(written, n)
      invariant FilledUpTo(written, target, orig, n, 0, y)
    {
      var x := 0;
      while x < n + 2
        invariant 0 <= x <= n + 2
        invariant IsGrid(written, n)
        invariant FilledUpTo(written, target, orig, n, x, y)
      {
        if Interior(n, x, y) {
          var velocity := ApplyVelocity(n, velG, presG, x, y);
          written := written[y := written[y][x := velocity]];
        }
        x := x + 1;
      }
      FilledNextRow(written, target, orig, n, y);
      y := y + 1;
    }
    FilledAll(written, target, orig, n);
  }
}
