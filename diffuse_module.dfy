/**
 * The `diffuseStep` kernel: one Jacobi round of implicit diffusion.
 *
 * For every interior cell it reads the cell's value in `prevTex` (the
 * right-hand side x0) and the four neighbours in `readTex` (the previous
 * estimate), and stores (x0 + a * sum) / (1 + 4a) into `writeTex`, where
 * a = dt * diff * N * N. Border cells of `writeTex` are not written.
 */
module DiffuseModule {
  import opened Textures
  import opened Division

  /** The coefficient a = dt * diff * N * N. */
  function Strength(n: nat, diff: real, dt: real): real {
    dt * diff * (n as real) * (n as real)
  }

  /** The Jacobi update of one cell from its right-hand side and four neighbours. */
  function DiffuseValue(a: real, prev: real, left: real, right: real, down: real, up: real): real
    requires 1.0 + 4.0 * a != 0.0
  {
    (prev + a * (left + right + down + up)) / (1.0 + 4.0 * a)
  }

  /** The value stored at interior cell (x, y); every neighbour read stays inside the grid. */
  function DiffuseCell(n: nat, a: real, readG: Grid, prevG: Grid, x: nat, y: nat): real
    requires IsGrid(readG, n) && IsGrid(prevG, n) && Interior(n, x, y)
    requires 1.0 + 4.0 * a != 0.0
  {
    DiffuseValue(a, prevG[y][x].x,
      readG[y][x - 1].x, readG[y][x + 1].x, readG[y - 1][x].x, readG[y + 1][x].x)
  }

  /** The contents of `writeTex` after one dispatch that started from `orig`. */
  function DiffuseField(n: nat, a: real, readG: Grid, prevG: Grid, orig: Grid): (g: Grid)
    requires IsGrid(readG, n) && IsGrid(prevG, n) && IsGrid(orig, n)
    requires 1.0 + 4.0 * a != 0.0
    ensures IsGrid(g, n)
    ensures forall y, x :: 0 <= y < n + 2 && 0 <= x < n + 2 && !Interior(n, x, y) ==> g[y][x] == orig[y][x]
    ensures forall y, x :: 0 <= y < n + 2 && 0 <= x < n + 2 && Interior(n, x, y) ==>
      g[y][x] == Vec2(DiffuseCell(n, a, readG, prevG, x, y), 0.0)
  {
    seq(n + 2, y requires 0 <= y < n + 2 =>
      seq(n + 2, x requires 0 <= x < n + 2 =>
        if Interior(n, x, y) then Vec2(DiffuseCell(n, a, readG, prevG, x, y), 0.0) else orig[y][x]))
  }

  /** The write texture is r32float: a dispatch keeps a single-channel texture single-channel. */
  lemma DiffuseFieldSingleChannel(n: nat, a: real, readG: Grid, prevG: Grid, orig: Grid)
    requires IsGrid(readG, n) && IsGrid(prevG, n) && IsGrid(orig, n)
    requires 1.0 + 4.0 * a != 0.0
    requires SingleChannel(orig)
    ensures SingleChannel(DiffuseField(n, a, readG, prevG, orig))
  {
  }

  /** With no diffusion (diff = 0, as the frame callback passes) a round copies the right-hand side. */
  lemma NoDiffusionCopiesPrev(n: nat, dt: real, prev: real, left: real, right: real, down: real, up: real)
    ensures DiffuseValue(Strength(n, 0.0, dt), prev, left, right, down, up) == prev
  {
  }

  /** Zero right-hand side and zero estimate give zero. */
  lemma DiffuseValueZero(a: real)
    requires 1.0 + 4.0 * a != 0.0
    ensures DiffuseValue(a, 0.0, 0.0, 0.0, 0.0, 0.0) == 0.0
  {
  }

  /**
   * For a >= 0 the update is a weighted average with weights 1/(1+4a) and
   * a/(1+4a) summing to 1, so it lies between the smallest and the largest
   * of the five values it reads.
   */
  lemma DiffuseValueBounded(a: real, prev: real, left: real, right: real, down: real, up: real, lo: real, hi: real)
    requires a >= 0.0
    requires lo <= prev <= hi && lo <= left <= hi && lo <= right <= hi && lo <= down <= hi && lo <= up <= hi
    ensures lo <= DiffuseValue(a, prev, left, right, down, up) <= hi
  {
    var d := 1.0 + 4.0 * a;
    var s := prev + a * (left + right + down + up);
    assert a * (left + right + down + up) >= a * (4.0 * lo) by {
      assert left + right + down + up >= 4.0 * lo;
    }
    assert a * (left + right + down + up) <= a * (4.0 * hi) by {
      assert left + right + down + up <= 4.0 * hi;
    }
    assert lo * d <= s <= hi * d;
    DivideBetween(s, d, lo, hi);
  }

  /** A dispatch over all-zero inputs leaves an all-zero output all zero. */
  lemma DiffuseFieldZero(n: nat, a: real, readG: Grid, prevG: Grid, orig: Grid)
    requires IsGrid(readG, n) && IsGrid(prevG, n) && IsGrid(orig, n)
    requires 1.0 + 4.0 * a != 0.0
    requires IsZero(readG) && IsZero(prevG) && IsZero(orig)
    ensures IsZero(DiffuseField(n, a, readG, prevG, orig))
  {
    var g := DiffuseField(n, a, readG, prevG, orig);
    forall y, x | 0 <= y < |g| && 0 <= x < |g[y]|
      ensures g[y][x] == Zero2
    {
      if Interior(n, x, y) {
        DiffuseValueZero(a);
      }
    }
  }

  /**
   * One dispatch of `diffuseStep`: `readG` and `prevG` are what the read
   * and prev textures hold, `orig` what the write texture holds before the
   * dispatch and `written` what it holds after. The loop visits the whole
   * padded grid and writes interior cells only; the write texture is neither
   * input, so every invocation sees the inputs the dispatch started with.
   */
  method DiffuseStep(n: nat, diff: real, dt: real, readG: Grid, prevG: Grid, orig: Grid) returns (written: Grid)
    requires IsGrid(readG, n) && IsGrid(prevG, n) && IsGrid(orig, n)
    requires 1.0 + 4.0 * Strength(n, diff, dt) != 0.0
    ensures written == DiffuseField(n, Strength(n, diff, dt), readG, prevG, orig)
  {
    var a := Strength(n, diff, dt);
    ghost var target := DiffuseField(n, a, readG, prevG, orig);
    written := orig;
    var y := 0;
    while y < n + 2
      invariant 0 <= y <= n + 2
      invariant IsGrid(written, n)
      invariant FilledUpTo(written, target, orig, n, 0, y)
    {
      var x := 0;
      while x < n + 2
        invariant 0 <= x <= n + 2
        invariant IsGrid(written, n)
        invariant FilledUpTo(written, target, orig, n, x, y)
      {
        if Interior(n, x, y) {
          var value := DiffuseCell(n, a, readG, prevG, x, y);
          written := written[y := written[y][x := Vec2(value, 0.0)]];
        }
        x := x + 1;
      }
      FilledNextRow(written, target, orig, n, y);
      y := y + 1;
    }
    FilledAll(written, target, orig, n);
  }
}
