/**
 * Texels, grids and textures shared by the compute kernels and the host code.
 *
 * Every field of the solver lives in an (N+2)x(N+2) texture: interior cells
 * are 1..N on both axes and a one-cell ghost border surrounds them. Row y,
 * column x of a grid is `g[y][x]`, the texel a kernel addresses as
 * `vec2u(x, y)`. A texel is modelled as a pair of reals; an r32float texture
 * keeps its value in the x component and 0 in y, an rg32float texture uses
 * both. Reals idealise 32-bit floats.
 */
module Textures {

  datatype Vec2 = Vec2(x: real, y: real)

  const Zero2: Vec2 := Vec2(0.0, 0.0)

  function Add(a: Vec2, b: Vec2): Vec2 { Vec2(a.x + b.x, a.y + b.y) }

  function Sub(a: Vec2, b: Vec2): Vec2 { Vec2(a.x - b.x, a.y - b.y) }

  function Scale(k: real, a: Vec2): Vec2 { Vec2(k * a.x, k * a.y) }

  type Grid = seq<seq<Vec2>>

  /** `g` has the (n+2)x(n+2) shape of a padded field. */
  ghost predicate IsGrid(g: Grid, n: nat) {
    |g| == n + 2 && forall y :: 0 <= y < |g| ==> |g[y]| == n + 2
  }

  /** The guard every kernel applies to its invocation id. */
  predicate Interior(n: nat, x: int, y: int) {
    1 <= x <= n && 1 <= y <= n
  }

  ghost predicate IsZero(g: Grid) {
    forall y, x :: 0 <= y < |g| && 0 <= x < |g[y]| ==> g[y][x] == Zero2
  }

  /** The contents of a freshly created texture: WebGPU zero-fills it. */
  function ZeroGrid(n: nat): (g: Grid)
    ensures IsGrid(g, n) && IsZero(g)
  {
    seq(n + 2, _ => seq(n + 2, _ => Zero2))
  }

  /** The texture formats the host code names; any other format is `OtherFormat`. */
  datatype Format = R32Float | RG32Float | OtherFormat(name: string)

  /**
   * What a `textureStore` of the vector `v` leaves in a texel of the given
   * format: r32float keeps the red channel only.
   */
  function StoreTexel(format: Format, v: Vec2): (t: Vec2)
    requires format == R32Float || format == RG32Float
    ensures t.x == v.x
    ensures t.y == (if format == RG32Float then v.y else 0.0)
  {
    if format == RG32Float then v else Vec2(v.x, 0.0)
  }

  /** Every texel holds 0 in its y component: what an r32float texture can hold. */
  ghost predicate SingleChannel(g: Grid) {
    forall y, x :: 0 <= y < |g| && 0 <= x < |g[y]| ==> g[y][x].y == 0.0
  }

  /**
   * Storing is idempotent, and a texel read back from a texture of the
   * format is stored unchanged: the stored value is what the format can hold.
   */
  lemma StoreTexelHoldsFormat(format: Format, v: Vec2)
    requires format == R32Float || format == RG32Float
    ensures StoreTexel(format, StoreTexel(format, v)) == StoreTexel(format, v)
    ensures format == R32Float ==> StoreTexel(format, v).y == 0.0
    ensures v.y == 0.0 ==> StoreTexel(format, v) == v
  {
  }

  /**
   * A GPU texture: its label, its format and the texels it holds. Host code
   * moves textures between slots by reference; moving the value is the same
   * thing here, since no texture is ever bound in two places that one
   * dispatch both reads and writes.
   */
  datatype Texture = Texture(name: string, format: Format, texels: Grid)

  /**
   * Loop invariant of a dispatch that visits texels row by row: the texels
   * before (x, y) already hold `target`, the others still hold `orig`.
   */
  ghost predicate FilledUpTo(g: Grid, target: Grid, orig: Grid, n: nat, x: int, y: int)
    requires IsGrid(g, n) && IsGrid(target, n) && IsGrid(orig, n)
  {
    forall yy, xx :: 0 <= yy < n + 2 && 0 <= xx < n + 2 ==>
      g[yy][xx] == (if yy < y || (yy == y && xx < x) then target[yy][xx] else orig[yy][xx])
  }

  /** Once every row is visited, the grid is the target. */
  lemma FilledAll(g: Grid, target: Grid, orig: Grid, n: nat)
    requires IsGrid(g, n) && IsGrid(target, n) && IsGrid(orig, n)
    requires FilledUpTo(g, target, orig, n, 0, n + 2)
    ensures g == target
  {
    forall y | 0 <= y < n + 2
      ensures g[y] == target[y]
    {
      assert forall x :: 0 <= x < n + 2 ==> g[y][x] == target[y][x];
    }
  }

  /** Moving to the next row keeps the invariant. */
  lemma FilledNextRow(g: Grid, target: Grid, orig: Grid, n: nat, y: int)
    requires IsGrid(g, n) && IsGrid(target, n) && IsGrid(orig, n)
    requires FilledUpTo(g, target, orig, n, n + 2, y)
    ensures FilledUpTo(g, target, orig, n, 0, y + 1)
  {
  }
}
