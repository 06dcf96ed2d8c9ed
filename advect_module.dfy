/**
 * The advection kernel. The `advect` entry point runs the MacCormack variant
 * on interior cells; `advectStam`, the plain semi-Lagrangian trace, is
 * defined beside it but not called.
 *
 * Positions are in texel units; a position p is sampled at the normalised
 * coordinate (p + 0.5) / texSize. Every traced position is clamped into
 * [0.5, N + 0.5] on both axes before it is sampled.
 *
 * The hardware sampler is a parameter: a function from a texture's texels
 * and a normalised coordinate to a texel value. Nothing is assumed about it
 * except where a lemma says so.
 */
module AdvectModule {
  import opened Textures
  import opened Division

  /** `textureSampleLevel` with the solver's sampler, at level 0. */
  type Sampler = (Grid, Vec2) -> Vec2

  /** Sampling a texture whose texels are all zero gives zero. */
  ghost predicate PreservesZero(sample: Sampler) {
    forall g: Grid, p: Vec2 {:trigger sample(g, p)} :: IsZero(g) ==> sample(g, p) == Zero2
  }

  /** WGSL `clamp(e, low, high)`, that is min(max(e, low), high). */
  function Clamp(e: real, low: real, high: real): (r: real)
    requires low <= high
    ensures low <= r <= high
    ensures low <= e <= high ==> r == e
  {
    var m := if e > low then e else low;
    if m < high then m else high
  }

  /** Clamps a position componentwise into [0.5, N + 0.5]. */
  function ClampPos(n: nat, p: Vec2): (q: Vec2)
    ensures 0.5 <= q.x <= (n as real) + 0.5 && 0.5 <= q.y <= (n as real) + 0.5
    ensures InRange(n, p) ==> q == p
  {
    Vec2(Clamp(p.x, 0.5, (n as real) + 0.5), Clamp(p.y, 0.5, (n as real) + 0.5))
  }

  predicate InRange(n: nat, p: Vec2) {
    0.5 <= p.x <= (n as real) + 0.5 && 0.5 <= p.y <= (n as real) + 0.5
  }

  /** The cell's own coordinates, `vec2f(id.xy)`. */
  function CellPos(x: nat, y: nat): Vec2 {
    Vec2(x as real, y as real)
  }

  /** dt0 = dt * N: how far one unit of velocity moves a position in one step, in texels. */
  function StepScale(n: nat, dt: real): real {
    dt * (n as real)
  }

  /** The backward trace from cell (x, y) along velocity `vel`. */
  function BackwardPos(n: nat, dt: real, x: nat, y: nat, vel: Vec2): Vec2 {
    ClampPos(n, Sub(CellPos(x, y), Scale(StepScale(n, dt), vel)))
  }

  /** The forward trace from cell (x, y) along velocity `vel`. */
  function ForwardPos(n: nat, dt: real, x: nat, y: nat, vel: Vec2): Vec2 {
    ClampPos(n, Add(CellPos(x, y), Scale(StepScale(n, dt), vel)))
  }

  /** The trace back from the forward position along the velocity sampled there. */
  function ForwardBackPos(n: nat, dt: real, forward: Vec2, forwardVel: Vec2): Vec2 {
    ClampPos(n, Sub(forward, Scale(StepScale(n, dt), forwardVel)))
  }

  /** The normalised coordinate (p + 0.5) / texSize at which position p is sampled. */
  function SampleCoord(p: Vec2, texSize: Vec2): Vec2
    requires texSize.x != 0.0 && texSize.y != 0.0
  {
    Vec2((p.x + 0.5) / texSize.x, (p.y + 0.5) / texSize.y)
  }

  /** The MacCormack combination: the backward value corrected by half the round-trip error. */
  function MacCormack(backward: Vec2, forwardBack: Vec2): Vec2 {
    Add(backward, Scale(0.5, Sub(forwardBack, backward)))
  }

  /** The size of a texture as `textureDimensions` reports it: (width, height). */
  function TexSize(n: nat, g: Grid): Vec2
    requires IsGrid(g, n)
  {
    Vec2(|g[0]| as real, |g| as real)
  }

  /** The value `advectMacCormack` stores at interior cell (x, y), before the texture format applies. */
  function MacCormackValue(n: nat, dt: real, sample: Sampler, readG: Grid, velG: Grid, x: nat, y: nat): Vec2
    requires IsGrid(readG, n) && IsGrid(velG, n) && Interior(n, x, y)
  {
    var texSize := TexSize(n, readG);
    var velocity := velG[y][x];
    var backwardPos := BackwardPos(n, dt, x, y, velocity);
    var backwardValue := sample(readG, SampleCoord(backwardPos, texSize));
    var forwardPos := ForwardPos(n, dt, x, y, velocity);
    var forwardVelocity := sample(velG, SampleCoord(forwardPos, texSize));
    var forwardBackPos := ForwardBackPos(n, dt, forwardPos, forwardVelocity);
    var forwardBackValue := sample(readG, SampleCoord(forwardBackPos, texSize));
    MacCormack(backwardValue, forwardBackValue)
  }

  /** The value `advectStam` would store at interior cell (x, y): one backward trace, one sample. */
  function StamValue(n: nat, dt: real, sample: Sampler, readG: Grid, velG: Grid, x: nat, y: nat): Vec2
    requires IsGrid(readG, n) && IsGrid(velG, n) && Interior(n, x, y)
  {
    var backPos := BackwardPos(n, dt, x, y, velG[y][x]);
    sample(readG, SampleCoord(backPos, TexSize(n, readG)))
  }

  function AdvectField(n: nat, dt: real, format: Format, sample: Sampler, readG: Grid, velG: Grid, orig: Grid): (g: Grid)
    requires format == R32Float || format == RG32Float
    requires IsGrid(readG, n) && IsGrid(velG, n) && IsGrid(orig, n)
    ensures IsGrid(g, n)
    ensures forall y, x :: 0 <= y < n + 2 && 0 <= x < n + 2 && !Interior(n, x, y) ==> g[y][x] == orig[y][x]
  {
    seq(n + 2, y requires 0 <= y < n + 2 =>
      seq(n + 2, x requires 0 <= x < n + 2 =>
        if Interior(n, x, y) then StoreTexel(format, MacCormackValue(n, dt, sample, readG, velG, x, y))
        else orig[y][x]))
  }

  /** Advecting into an r32float texture keeps it single-channel, whatever the sampler returns. */
  lemma AdvectFieldSingleChannel(n: nat, dt: real, sample: Sampler, readG: Grid, velG: Grid, orig: Grid)
    requires IsGrid(readG, n) && IsGrid(velG, n) && IsGrid(orig, n) && SingleChannel(orig)
    ensures SingleChannel(AdvectField(n, dt, R32Float, sample, readG, velG, orig))
  {
  }

  /**
   * Every position the kernel samples lies in [0.5, N + 0.5], so on a texture
   * of N + 2 texels its normalised coordinate lies in [1/(N+2), (N+1)/(N+2)]:
   * no sample reaches outside the ghost border.
   */
  lemma SampleCoordInTexture(n: nat, p: Vec2)
    requires InRange(n, p)
    ensures var c := SampleCoord(p, Vec2((n + 2) as real, (n + 2) as real));
      && 1.0 / ((n + 2) as real) <= c.x <= ((n + 1) as real) / ((n + 2) as real)
      && 1.0 / ((n + 2) as real) <= c.y <= ((n + 1) as real) / ((n + 2) as real)
  {
    var s := (n + 2) as real;
    CoordBetween(p.x, s, n);
    CoordBetween(p.y, s, n);
  }

  lemma CoordBetween(px: real, s: real, n: nat)
    requires s == (n + 2) as real
    requires 0.5 <= px <= (n as real) + 0.5
    ensures 1.0 / s <= (px + 0.5) / s <= ((n + 1) as real) / s
  {
    assert 1.0 <= px + 0.5 <= (n + 1) as real;
    DivideMonotone(1.0, px + 0.5, s);
    DivideMonotone(px + 0.5, (n + 1) as real, s);
  }

  /** The three traced positions of every interior cell are in range, whatever the velocities. */
  lemma TracedPositionsInRange(n: nat, dt: real, sample: Sampler, readG: Grid, velG: Grid, x: nat, y: nat)
    requires IsGrid(readG, n) && IsGrid(velG, n) && Interior(n, x, y)
    ensures InRange(n, BackwardPos(n, dt, x, y, velG[y][x]))
    ensures InRange(n, ForwardPos(n, dt, x, y, velG[y][x]))
    ensures forall fv: Vec2 {:trigger ForwardBackPos(n, dt, ForwardPos(n, dt, x, y, velG[y][x]), fv)} ::
      InRange(n, ForwardBackPos(n, dt, ForwardPos(n, dt, x, y, velG[y][x]), fv))
    ensures TexSize(n, readG) == Vec2((n + 2) as real, (n + 2) as real)
  {
  }

  /** The MacCormack value is the midpoint of the backward and forward-back samples. */
  lemma MacCormackIsMidpoint(b: Vec2, fb: Vec2)
    ensures MacCormack(b, fb) == Vec2((b.x + fb.x) / 2.0, (b.y + fb.y) / 2.0)
    ensures (b.x <= fb.x ==> b.x <= MacCormack(b, fb).x <= fb.x)
    ensures (fb.x <= b.x ==> fb.x <= MacCormack(b, fb).x <= b.x)
    ensures (b.y <= fb.y ==> b.y <= MacCormack(b, fb).y <= fb.y)
    ensures (fb.y <= b.y ==> fb.y <= MacCormack(b, fb).y <= b.y)
  {
  }

  /**
   * With zero velocity at the cell and at the forward position, every traced
   * position is the cell itself.
   */
  lemma StillFluidTracesToCell(n: nat, dt: real, x: nat, y: nat)
    requires Interior(n, x, y)
    ensures BackwardPos(n, dt, x, y, Zero2) == CellPos(x, y)
    ensures ForwardPos(n, dt, x, y, Zero2) == CellPos(x, y)
    ensures ForwardBackPos(n, dt, ForwardPos(n, dt, x, y, Zero2), Zero2) == CellPos(x, y)
  {
    assert InRange(n, CellPos(x, y));
  }

  /** When sampling zero gives zero, the MacCormack value over zero fields is zero. */
  lemma MacCormackValueZero(n: nat, dt: real, sample: Sampler, readG: Grid, velG: Grid, x: nat, y: nat)
    requires IsGrid(readG, n) && IsGrid(velG, n) && Interior(n, x, y)
    requires PreservesZero(sample) && IsZero(readG) && IsZero(velG)
    ensures MacCormackValue(n, dt, sample, readG, velG, x, y) == Zero2
  {
    var texSize := TexSize(n, readG);
    var velocity := velG[y][x];
    var forwardPos := ForwardPos(n, dt, x, y, velocity);
    var forwardVelocity := sample(velG, SampleCoord(forwardPos, texSize));
    assert forwardVelocity == Zero2;
    assert sample(readG, SampleCoord(BackwardPos(n, dt, x, y, velocity), texSize)) == Zero2;
    var forwardBackPos := ForwardBackPos(n, dt, forwardPos, forwardVelocity);
    assert sample(readG, SampleCoord(forwardBackPos, texSize)) == Zero2;
  }

  /** When sampling zero gives zero, advecting a zero field gives zero. */
  lemma AdvectFieldZero(n: nat, dt: real, format: Format, sample: Sampler, readG: Grid, velG: Grid, orig: Grid)
    requires format == R32Float || format == RG32Float
    requires IsGrid(readG, n) && IsGrid(velG, n) && IsGrid(orig, n)
    requires PreservesZero(sample) && IsZero(readG) && IsZero(velG) && IsZero(orig)
    ensures IsZero(AdvectField(n, dt, format, sample, readG, velG, orig))
  {
    forall y: nat, x: nat | Interior(n, x, y)
      ensures MacCormackValue(n, dt, sample, readG, velG, x, y) == Zero2
    {
      MacCormackValueZero(n, dt, sample, readG, velG, x, y);
    }
    AdvectFieldOfZeroValues(n, dt, format, sample, readG, velG, orig);
  }

  lemma AdvectFieldOfZeroValues(n: nat, dt: real, format: Format, sample: Sampler, readG: Grid, velG: Grid, orig: Grid)
    requires format == R32Float || format == RG32Float
    requires IsGrid(readG, n) && IsGrid(velG, n) && IsGrid(orig, n) && IsZero(orig)
    requires forall y: nat, x: nat :: Interior(n, x, y) ==> MacCormackValue(n, dt, sample, readG, velG, x, y) == Zero2
    ensures IsZero(AdvectField(n, dt, format, sample, readG, velG, orig))
  {
    var g := AdvectField(n, dt, format, sample, readG, velG, orig);
    forall y, x | 0 <= y < |g| && 0 <= x < |g[y]| ensures g[y][x] == Zero2 {
      if Interior(n, x, y) {
        assert g[y][x] == StoreTexel(format, MacCormackValue(n, dt, sample, readG, velG, x, y));
      } else {
        assert g[y][x] == orig[y][x];
      }
    }
  }

  /**
   * One dispatch of `advect` through the pipeline built for `format`: reads
   * the advected texture (`readG`) and the velocity texture (`velG`) and
   * turns the write texture, neither of them, from `orig` into `written`.
   */
  method Advect(n: nat, dt: real, format: Format, sample: Sampler, readG: Grid, velG: Grid, orig: Grid)
    returns (written: Grid)
    requires format == R32Float || format == RG32Float
    requires IsGrid(readG, n) && IsGrid(velG, n) && IsGrid(orig, n)
    ensures written == AdvectField(n, dt, format, sample, readG, velG, orig)
  {
    ghost var target := AdvectField(n, dt, format, sample, readG, velG, orig);
    written := orig;
    var y := 0;
    while y < n + 2
      invariant 0 <= y <= n + 2
      invariant IsGrid(written, n)
      invariant FilledUpTo(written, target, orig, n, 0, y)
    {
      var x := 0;
      while x < n + 2
        invariant 0 <= x <= n + 2
        invariant IsGrid(written, n)
        invariant FilledUpTo(written, target, orig, n, x, y)
      {
        if Interior(n, x, y) {
          var value := MacCormackValue(n, dt, sample, readG, velG, x, y);
          written := written[y := written[y][x := StoreTexel(format, value)]];
        }
        x := x + 1;
      }
      FilledNextRow(written, target, orig, n, y);
      y := y + 1;
    }
    FilledAll(written, target, orig, n);
  }
}
