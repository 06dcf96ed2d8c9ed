/**
 * The host-side orchestration of the solver: five triple-buffered fields,
 * the helpers that encode one kernel dispatch each and rotate the fields'
 * slots afterwards, and the per-frame callback.
 *
 * Encoding a dispatch and running it are one step here: the kernel methods
 * update the write texture at the point where the host records the pass.
 * On a frame that completes, the host submits the recorded commands, they
 * run in recording order, and every recording reads the slots as they are
 * after the rotations that precede it, so the order of effects is the same.
 * On a frame where `advect` raises its format error the host submits
 * nothing, so none of that frame's dispatches run; the model has already
 * applied the ones recorded before the error, and only its slot rotations
 * match the source there.
 */
module Renderer {
  import opened Textures
  import opened ReadWritePrev
  import DiffuseModule
  import AdvectModule
  import ProjectModule
  import SplatModule
  import Seeding

  /** Interior cells per side. */
  const N: nat := 1024
  /** Invocations per workgroup side. */
  const WorkgroupDim: nat := 8
  /** The time step the frame callback passes to every helper. */
  const FrameDt: real := 0.01
  const PressureIters: nat := 100
  const DiffuseIters: nat := 20
  /** Splat radius N / 50 and amount 1; the pointer's motion scaled by 0.1 is the impulse. */
  const SplatRadius: real := (N as real) / 50.0
  const SplatAmount: real := 1.0
  const ImpulseScale: real := 0.1

  /** Workgroups per dimension: the ceiling of extent / dim. */
  function WorkgroupCount(extent: nat, dim: nat): nat
    requires dim > 0
  {
    (extent + dim - 1) / dim
  }

  /** `WorkgroupCount` is the least number of workgroups whose invocations cover the extent. */
  lemma WorkgroupCountIsCeiling(extent: nat, dim: nat)
    requires dim > 0
    ensures WorkgroupCount(extent, dim) * dim >= extent
    ensures WorkgroupCount(extent, dim) == 0 || (WorkgroupCount(extent, dim) - 1) * dim < extent
  {
    var q := (extent + dim - 1) / dim;
    var r := (extent + dim - 1) % dim;
    assert extent + dim - 1 == q * dim + r && 0 <= r < dim;
    assert q * dim >= extent;
    if q > 0 {
      assert (q - 1) * dim == q * dim - dim;
    }
  }

  /**
   * Each dispatch launches 129 x 129 workgroups of 8 x 8 invocations: 1032
   * per side, covering the 1026 texels of the padded grid. The extra
   * invocations and the border invocations fail the kernels' interior test.
   */
  lemma DispatchCoversGrid()
    ensures WorkgroupCount(N + 2, WorkgroupDim) == 129
    ensures WorkgroupCount(N + 2, WorkgroupDim) * WorkgroupDim >= N + 2
    ensures forall x: nat, y: nat :: x >= N + 2 || y >= N + 2 ==> !Interior(N, x, y)
  {
    WorkgroupCountIsCeiling(N + 2, WorkgroupDim);
  }

  // ---------------------------------------------------------------------------
  // The splat bind group.

  /** The four textures the `splat` shader declares, by role, with their binding numbers 1 to 4. */
  datatype SplatView<T> = SplatView(densityRead: T, densityWrite: T, velocityRead: T, velocityWrite: T)

  /** The binding numbers the `splat` shader declares for textures. */
  const SplatShaderBindings: set<nat> := {1, 2, 3, 4}

  /** What the shader sees through a bind group (binding number to texture): its four textures, when all four are bound. */
  function ShaderView<T>(entries: map<nat, T>): (r: Option<SplatView<T>>)
    ensures r.Some? <==> SplatShaderBindings <= entries.Keys
  {
    if 1 in entries && 2 in entries && 3 in entries && 4 in entries then
      Some(SplatView(entries[1], entries[2], entries[3], entries[4]))
    else
      None
  }

  /** Every entry of the bind group is a binding the shader declares (an "auto" layout accepts nothing else). */
  predicate MatchesLayout<T>(entries: map<nat, T>) {
    entries.Keys <= SplatShaderBindings
  }

  /** The entries the host passes for `splat`: bindings 1-3 for density's slots, 4-6 for velocity's. */
  function SplatEntriesAsWritten<T>(density: Triple<T>, velocity: Triple<T>): map<nat, T> {
    map[1 := density.read, 2 := density.write, 3 := density.prev,
        4 := velocity.read, 5 := velocity.write, 6 := velocity.prev]
  }

  /**
   * As written, the shader's velocity input is density's prev texture, its
   * velocity output is velocity's read texture, and bindings 5 and 6 are
   * not in the shader's layout.
   */
  lemma SplatBindingsAsWrittenMismatch<T>(density: Triple<T>, velocity: Triple<T>)
    ensures ShaderView(SplatEntriesAsWritten(density, velocity))
      == Some(SplatView(density.read, density.write, density.prev, velocity.read))
    ensures !MatchesLayout(SplatEntriesAsWritten(density, velocity))
  {
    assert 5 in SplatEntriesAsWritten(density, velocity).Keys;
  }

  /** The entries the shader's declarations call for. */
  function SplatEntries<T>(density: Triple<T>, velocity: Triple<T>): map<nat, T> {
    map[1 := density.read, 2 := density.write, 3 := velocity.read, 4 := velocity.write]
  }

  /**
   * With these entries the layout matches and the shader reads each
   * field's read texture and writes each field's write texture.
   */
  lemma SplatBindingsMatchShader<T>(density: Triple<T>, velocity: Triple<T>)
    ensures ShaderView(SplatEntries(density, velocity))
      == Some(SplatView(density.read, density.write, velocity.read, velocity.write))
    ensures MatchesLayout(SplatEntries(density, velocity))
  {
  }

  // ---------------------------------------------------------------------------
  // The pointer.

  /** Pointer position in grid units, its position at the previous frame, and whether a button is down. */
  class Pointer {
    var x: real
    var y: real
    var px: real
    var py: real
    var down: bool

    constructor ()
      ensures x == 0.0 && y == 0.0 && px == 0.0 && py == 0.0 && !down
    {
      x, y, px, py, down := 0.0, 0.0, 0.0, 0.0, false;
    }

    /** `pointermove`: the client position scaled from the page's size to N. */
    method OnMove(clientX: real, clientY: real, width: real, height: real)
      requires width != 0.0 && height != 0.0
      modifies this
      ensures x == clientX / width * (N as real) && y == clientY / height * (N as real)
      ensures px == old(px) && py == old(py) && down == old(down)
    {
      x := clientX / width * (N as real);
      y := clientY / height * (N as real);
    }

    /** `pointerdown`: a move, then the button is down. */
    method OnDown(clientX: real, clientY: real, width: real, height: real)
      requires width != 0.0 && height != 0.0
      modifies this
      ensures x == clientX / width * (N as real) && y == clientY / height * (N as real)
      ensures px == old(px) && py == old(py) && down
    {
      OnMove(clientX, clientY, width, height);
      down := true;
    }

    /** Where the frame splats: the pointer's current position. */
    function Position(): Vec2
      reads this
    {
      Vec2(x, y)
    }

    /** The splat impulse: 0.1 times the pointer's motion since the last frame. */
    function Impulse(): Vec2
      reads this
    {
      Vec2((x - px) * ImpulseScale, (y - py) * ImpulseScale)
    }

    /** The end of a frame: the previous position becomes the current one. */
    method Settle()
      modifies this
      ensures x == old(x) && y == old(y) && px == old(x) && py == old(y) && down == old(down)
    {
      px, py := x, y;
    }

    /** `pointerup`: the button is released; the position is kept. */
    method OnUp()
      modifies this
      ensures x == old(x) && y == old(y) && px == old(px) && py == old(py) && !down
    {
      down := false;
    }
  }

  // ---------------------------------------------------------------------------
  // What the helpers do to a field's slots.

  /** The slots after a dispatch left `g` in the write texture. */
  function Written(s: Triple<Texture>, g: Grid): Triple<Texture> {
    s.(write := s.write.(texels := g))
  }

  /** A dispatch changes no label, and a rotation moves the labels with the textures. */
  lemma WrittenThenRotated(s: Triple<Texture>, g: Grid, r: Rotation)
    ensures NamesOf(Rotate(Written(s, g), r)) == Rotate(NamesOf(s), r)
  {
  }

  /** All three slots hold an (N + 2)-square grid. */
  ghost predicate SizedSlots(s: Triple<Texture>) {
    IsGrid(s.read.texels, N) && IsGrid(s.write.texels, N) && IsGrid(s.prev.texels, N)
  }

  /** All three slots hold zero everywhere. */
  ghost predicate ZeroSlots(s: Triple<Texture>) {
    IsZero(s.read.texels) && IsZero(s.write.texels) && IsZero(s.prev.texels)
  }

  /** `k` rounds of `diffuseStep` with strength `a`, each followed by a flip. */
  function DiffuseRounds(s: Triple<Texture>, a: real, flip: Rotation, k: nat): (r: Triple<Texture>)
    requires SizedSlots(s) && 1.0 + 4.0 * a != 0.0
    ensures SizedSlots(r)
    decreases k
  {
    if k == 0 then s
    else
      var t := DiffuseRounds(s, a, flip, k - 1);
      Rotate(Written(t, DiffuseModule.DiffuseField(N, a, t.read.texels, t.prev.texels, t.write.texels)), flip)
  }

  /** `k` rounds of `projectSolve` against the divergence `divG`, each followed by a flip. */
  function SolveRounds(s: Triple<Texture>, divG: Grid, flip: Rotation, k: nat): (r: Triple<Texture>)
    requires SizedSlots(s) && IsGrid(divG, N)
    ensures SizedSlots(r)
    decreases k
  {
    if k == 0 then s
    else
      var t := SolveRounds(s, divG, flip, k - 1);
      Rotate(Written(t, ProjectModule.SolveField(N, divG, t.read.texels, t.write.texels)), flip)
  }

  /** The velocity, divergence and pressure slots after `project`. */
  datatype Projected = Projected(velocity: Triple<Texture>, divergence: Triple<Texture>, pressure: Triple<Texture>)

  /**
   * `project` on velocity `v`, divergence `d` and pressure `p`: `projectInit`
   * and a flip of divergence and pressure, `iters` solver rounds, then
   * `projectApply` and a flip of velocity.
   */
  function ProjectEffect(v: Triple<Texture>, d: Triple<Texture>, p: Triple<Texture>, flip: Rotation, iters: nat)
    : (r: Projected)
    requires SizedSlots(v) && SizedSlots(d) && SizedSlots(p)
    ensures SizedSlots(r.velocity) && SizedSlots(r.divergence) && SizedSlots(r.pressure)
  {
    var d1 := Rotate(Written(d, ProjectModule.DivergenceField(N, v.read.texels, d.write.texels)), flip);
    var p1 := Rotate(Written(p, ProjectModule.DampedPressureField(N, p.read.texels, p.write.texels)), flip);
    var p2 := SolveRounds(p1, d1.read.texels, flip, iters);
    var v1 := Rotate(Written(v, ProjectModule.ApplyField(N, v.read.texels, p2.read.texels, v.write.texels)), flip);
    Projected(v1, d1, p2)
  }

  /** Diffusion rounds move the labels as `k` flips do. */
  lemma {:induction false} DiffuseRoundsRotate(s: Triple<Texture>, a: real, flip: Rotation, k: nat)
    requires SizedSlots(s) && 1.0 + 4.0 * a != 0.0
    ensures NamesOf(DiffuseRounds(s, a, flip, k)) == RotateAll(NamesOf(s), Repeat(flip, k))
    decreases k
  {
    if k > 0 {
      var t := DiffuseRounds(s, a, flip, k - 1);
      WrittenThenRotated(t, DiffuseModule.DiffuseField(N, a, t.read.texels, t.prev.texels, t.write.texels), flip);
      DiffuseRoundsRotate(s, a, flip, k - 1);
      RotateAllSnoc(NamesOf(s), Repeat(flip, k - 1), flip);
      assert Repeat(flip, k) == Repeat(flip, k - 1) + [flip];
    }
  }

  /** Diffusing a field that is zero everywhere leaves it zero everywhere. */
  lemma {:induction false} DiffuseRoundsKeepZero(s: Triple<Texture>, a: real, flip: Rotation, k: nat)
    requires SizedSlots(s) && 1.0 + 4.0 * a != 0.0 && ZeroSlots(s)
    ensures ZeroSlots(DiffuseRounds(s, a, flip, k))
    decreases k
  {
    if k > 0 {
      var t := DiffuseRounds(s, a, flip, k - 1);
      DiffuseRoundsKeepZero(s, a, flip, k - 1);
      DiffuseModule.DiffuseFieldZero(N, a, t.read.texels, t.prev.texels, t.write.texels);
    }
  }

  /** Solver rounds move the labels as `k` flips do. */
  lemma {:induction false} SolveRoundsRotate(s: Triple<Texture>, divG: Grid, flip: Rotation, k: nat)
    requires SizedSlots(s) && IsGrid(divG, N)
    ensures NamesOf(SolveRounds(s, divG, flip, k)) == RotateAll(NamesOf(s), Repeat(flip, k))
    decreases k
  {
    if k > 0 {
      var t := SolveRounds(s, divG, flip, k - 1);
      WrittenThenRotated(t, ProjectModule.SolveField(N, divG, t.read.texels, t.write.texels), flip);
      SolveRoundsRotate(s, divG, flip, k - 1);
      RotateAllSnoc(NamesOf(s), Repeat(flip, k - 1), flip);
      assert Repeat(flip, k) == Repeat(flip, k - 1) + [flip];
    }
  }

  /** With zero divergence, solving a pressure field that is zero everywhere leaves it zero. */
  lemma {:induction false} SolveRoundsKeepZero(s: Triple<Texture>, divG: Grid, flip: Rotation, k: nat)
    requires SizedSlots(s) && IsGrid(divG, N) && ZeroSlots(s) && IsZero(divG)
    ensures ZeroSlots(SolveRounds(s, divG, flip, k))
    decreases k
  {
    if k > 0 {
      var t := SolveRounds(s, divG, flip, k - 1);
      SolveRoundsKeepZero(s, divG, flip, k - 1);
      ProjectModule.SolveFieldZero(N, divG, t.read.texels, t.write.texels);
    }
  }

  /** `project` flips velocity and divergence once and the pressure field `iters + 1` times. */
  lemma ProjectRotates(v: Triple<Texture>, d: Triple<Texture>, p: Triple<Texture>, flip: Rotation, iters: nat)
    requires SizedSlots(v) && SizedSlots(d) && SizedSlots(p)
    ensures var r := ProjectEffect(v, d, p, flip, iters);
      && NamesOf(r.velocity) == Rotate(NamesOf(v), flip)
      && NamesOf(r.divergence) == Rotate(NamesOf(d), flip)
      && NamesOf(r.pressure) == RotateAll(NamesOf(p), Repeat(flip, iters + 1))
  {
    var r := ProjectEffect(v, d, p, flip, iters);
    var pg := ProjectModule.DampedPressureField(N, p.read.texels, p.write.texels);
    var dg := ProjectModule.DivergenceField(N, v.read.texels, d.write.texels);
    var p1 := Rotate(Written(p, pg), flip);
    var d1 := Rotate(Written(d, dg), flip);
    var p2 := SolveRounds(p1, d1.read.texels, flip, iters);
    var vg := ProjectModule.ApplyField(N, v.read.texels, p2.read.texels, v.write.texels);
    assert r == Projected(Rotate(Written(v, vg), flip), d1, p2);
    WrittenThenRotated(v, vg, flip);
    WrittenThenRotated(d, dg, flip);
    WrittenThenRotated(p, pg, flip);
    SolveRoundsRotate(p1, d1.read.texels, flip, iters);
    RotateAllSnoc(NamesOf(p), [], flip);
    assert RotateAll(NamesOf(p), [flip]) == NamesOf(p1);
    RotateAllAppend(NamesOf(p), [flip], Repeat(flip, iters));
    assert [flip] + Repeat(flip, iters) == Repeat(flip, iters + 1);
  }

  /** `project` on fields that are zero everywhere leaves them zero everywhere. */
  lemma ProjectKeepsZero(v: Triple<Texture>, d: Triple<Texture>, p: Triple<Texture>, flip: Rotation, iters: nat)
    requires SizedSlots(v) && SizedSlots(d) && SizedSlots(p)
    requires ZeroSlots(v) && ZeroSlots(d) && ZeroSlots(p)
    ensures var r := ProjectEffect(v, d, p, flip, iters);
      ZeroSlots(r.velocity) && ZeroSlots(r.divergence) && ZeroSlots(r.pressure)
  {
    ProjectModule.InitFieldsZero(N, v.read.texels, p.read.texels, d.write.texels, p.write.texels);
    var p1 := Rotate(Written(p, ProjectModule.DampedPressureField(N, p.read.texels, p.write.texels)), flip);
    var d1 := Rotate(Written(d, ProjectModule.DivergenceField(N, v.read.texels, d.write.texels)), flip);
    SolveRoundsKeepZero(p1, d1.read.texels, flip, iters);
    var p2 := SolveRounds(p1, d1.read.texels, flip, iters);
    ProjectModule.ApplyFieldZero(N, v.read.texels, p2.read.texels, v.write.texels);
  }

  // ---------------------------------------------------------------------------
  // The renderer.

  /** Whether `advect` found a format it has a pipeline for. */
  datatype Outcome = Ok | InvalidTextureFormat

  /** The slot rotations the density step applies: swap, the diffusion rounds, swap, advect. */
  function DensityStepRotations(flip: Rotation): seq<Rotation> {
    DensityStepRounds(flip, DiffuseIters)
  }

  function DensityStepRounds(flip: Rotation, k: nat): seq<Rotation> {
    [SwapRotation] + Repeat(flip, k) + [SwapRotation, flip]
  }

  /** Applying four rotations one after another. */
  lemma FourRotations<T>(s: Triple<T>, a: Rotation, b: Rotation, c: Rotation, d: Rotation)
    ensures RotateAll(s, [a, b, c, d]) == Rotate(Rotate(Rotate(Rotate(s, a), b), c), d)
  {
    RotateAllSnoc(s, [], a);
    assert [] + [a] == [a];
    RotateAllSnoc(s, [a], b);
    assert [a] + [b] == [a, b];
    RotateAllSnoc(s, [a, b], c);
    assert [a, b] + [c] == [a, b, c];
    RotateAllSnoc(s, [a, b, c], d);
    assert [a, b, c] + [d] == [a, b, c, d];
  }

  /** Two flips in a row. */
  lemma TwoFlips<T>(s: Triple<T>, flip: Rotation)
    ensures RotateAll(s, Repeat(flip, 2)) == Rotate(Rotate(s, flip), flip)
  {
    assert Repeat(flip, 2) == [] + [flip] + [flip];
    RotateAllSnoc(s, [], flip);
    RotateAllSnoc(s, [] + [flip], flip);
  }

  /** The density step as one rotation sequence. */
  lemma {:induction false} DensityStepComposes<T>(s: Triple<T>, flip: Rotation, k: nat)
    ensures RotateAll(s, DensityStepRounds(flip, k))
      == Rotate(Rotate(RotateAll(Rotate(s, SwapRotation), Repeat(flip, k)), SwapRotation), flip)
  {
    var rs := DensityStepRounds(flip, k);
    assert rs == ([SwapRotation] + Repeat(flip, k) + [SwapRotation]) + [flip];
    RotateAllSnoc(s, [SwapRotation] + Repeat(flip, k), SwapRotation);
    RotateAllSnoc(s, [SwapRotation] + Repeat(flip, k) + [SwapRotation], flip);
    RotateAllAppend(s, [SwapRotation], Repeat(flip, k));
    RotateAllSnoc(s, [], SwapRotation);
  }

  /** A frame as the pointer step's rotations followed by the velocity and density steps' rotations. */
  lemma FrameComposes<T>(d: Triple<T>, v: Triple<T>, flip: Rotation, down: bool)
    ensures RotateAll(d, DensityFrameRotations(flip, down))
      == RotateAll(RotateAll(d, PointerStepRotations(flip, down)), DensityStepRotations(flip))
    ensures RotateAll(v, VelocityFrameRotations(flip))
      == RotateAll(Rotate(v, flip), [flip, SwapRotation, flip, flip])
  {
    RotateAllAppend(d, PointerStepRotations(flip, down), DensityStepRotations(flip));
    assert VelocityFrameRotations(flip) == [flip] + [flip, SwapRotation, flip, flip];
    RotateAllAppend(v, [flip], [flip, SwapRotation, flip, flip]);
    RotateAllSnoc(v, [], flip);
  }

  /** The slot rotations the pointer step applies to density: the splat's flip and a swap, or the idle branch's flip. */
  function PointerStepRotations(flip: Rotation, down: bool): seq<Rotation> {
    if down then [flip, SwapRotation] else [flip]
  }

  /** The slot rotations one frame applies to density: the pointer step's, then the density step's. */
  function DensityFrameRotations(flip: Rotation, down: bool): seq<Rotation> {
    PointerStepRotations(flip, down) + DensityStepRotations(flip)
  }

  /** The slot rotations one frame applies to velocity, in either branch. */
  function VelocityFrameRotations(flip: Rotation): seq<Rotation> {
    [flip, flip, SwapRotation, flip, flip]
  }

  /** A field the kernels can use: three differently labelled textures of one format, each an (N + 2)-square grid. */
  ghost predicate Ready(f: ReadWritePrevTex)
    reads f
  {
    f.Valid() && f.Sized(N)
  }

  /** No texture of `f` is a texture of `g`. */
  ghost predicate Apart(f: ReadWritePrevTex, g: ReadWritePrevTex) {
    f.Labels !! g.Labels
  }

  /** Every slot of `f` holds the grid `g`. */
  ghost predicate Holds(f: ReadWritePrevTex, g: Grid)
    reads f
  {
    f.readTex.texels == g && f.writeTex.texels == g && f.prevTex.texels == g
  }

  class Renderer {
    const density: ReadWritePrevTex
    const velocity: ReadWritePrevTex
    const divergence: ReadWritePrevTex
    const pressure1: ReadWritePrevTex
    const pressure2: ReadWritePrevTex
    const pointer: Pointer
    /** The permutation `flip()` applies to a field's slots. */
    const flip: Rotation
    /** The linear sampler the advection pipelines use. */
    const sample: AdvectModule.Sampler
    /** The WGSL `length` builtin the splat kernel uses. */
    const length: SplatModule.Length

    ghost function Fields(): set<ReadWritePrevTex> {
      {density, velocity, divergence, pressure1, pressure2}
    }

    ghost predicate Valid()
      reads Fields()
    {
      && Ready(density) && Ready(velocity) && Ready(divergence) && Ready(pressure1) && Ready(pressure2)
      && density != velocity && density != divergence && density != pressure1 && density != pressure2
      && velocity != divergence && velocity != pressure1 && velocity != pressure2
      && divergence != pressure1 && divergence != pressure2 && pressure1 != pressure2
      && Apart(density, velocity) && Apart(density, divergence) && Apart(density, pressure1)
      && Apart(density, pressure2) && Apart(velocity, divergence) && Apart(velocity, pressure1)
      && Apart(velocity, pressure2) && Apart(divergence, pressure1) && Apart(divergence, pressure2)
      && Apart(pressure1, pressure2)
      && flip.IsPermutation()
    }

    /** Every texel of every field is zero: a fluid at rest with nothing in it. */
    ghost predicate Quiescent()
      reads Fields()
    {
      && density.AllZero() && velocity.AllZero() && divergence.AllZero()
      && pressure1.AllZero() && pressure2.AllZero()
    }

    /**
     * The renderer's resources: the seeded density (r32float) and velocity
     * (rg32float) fields, zeroed divergence and pressure fields (r32float),
     * and a pointer at the origin with no button down.
     */
    constructor (flip: Rotation, sample: AdvectModule.Sampler, length: SplatModule.Length)
      requires flip.IsPermutation()
      ensures Valid() && fresh(pointer)
      ensures this.flip == flip && this.sample == sample && this.length == length
      ensures density.format == R32Float && velocity.format == RG32Float
      ensures divergence.format == R32Float && pressure1.format == R32Float && pressure2.format == R32Float
      ensures Holds(density, Seeding.SeedGrid(N)) && Holds(velocity, Seeding.SeedGrid(N))
      ensures Holds(divergence, ZeroGrid(N)) && Holds(pressure1, ZeroGrid(N)) && Holds(pressure2, ZeroGrid(N))
      ensures pointer.x == 0.0 && pointer.y == 0.0 && pointer.px == 0.0 && pointer.py == 0.0 && !pointer.down
    {
      var densityField, velocityField := SeededFields();
      var divergenceField := ZeroField(DivergenceLabel);
      var pressure1Field := ZeroField(Pressure1Label);
      var pressure2Field := ZeroField(Pressure2Label);
      density, velocity, divergence := densityField, velocityField, divergenceField;
      pressure1, pressure2 := pressure1Field, pressure2Field;
      pointer := new Pointer();
      this.flip, this.sample, this.length := flip, sample, length;
      FieldLabelsApart();
    }

    /**
     * In a valid state no dispatch writes a texture it reads: the write
     * texture of each kernel's target is labelled apart from every texture
     * the helpers bind as that kernel's input.
     */
    lemma WritesApartFromReads()
      requires Valid()
      // `diffuseStep` on density reads its read and prev textures.
      ensures density.writeTex.name !in {density.readTex.name, density.prevTex.name}
      // `advect` and `splat` read density's and velocity's read textures, and
      // velocity's own advection reads its prev texture.
      ensures density.writeTex.name !in {density.readTex.name, velocity.readTex.name}
      ensures velocity.writeTex.name !in {velocity.readTex.name, velocity.prevTex.name, density.readTex.name}
      // `projectInit` reads velocity and the target pressure; `projectSolve`
      // reads divergence and the target pressure.
      ensures divergence.writeTex.name !in {velocity.readTex.name, pressure1.readTex.name, pressure2.readTex.name}
      ensures pressure1.writeTex.name !in {velocity.readTex.name, divergence.readTex.name, pressure1.readTex.name}
      ensures pressure2.writeTex.name !in {velocity.readTex.name, divergence.readTex.name, pressure2.readTex.name}
      // `projectApply` reads velocity and the target pressure.
      ensures velocity.writeTex.name !in {pressure1.readTex.name, pressure2.readTex.name}
    {
      InLabels(density);
      InLabels(velocity);
      InLabels(divergence);
      InLabels(pressure1);
      InLabels(pressure2);
    }

    /**
     * `diffuse`: `iters` Jacobi rounds on `target`, each reading the read
     * and prev textures and writing the write texture, each followed by a flip.
     */
    method Diffuse(target: ReadWritePrevTex, diff: real, dt: real, iters: nat)
      requires Ready(target) && flip.IsPermutation()
      requires 1.0 + 4.0 * DiffuseModule.Strength(N, diff, dt) != 0.0
      modifies target
      ensures Ready(target)
      ensures target.Slots() == DiffuseRounds(old(target.Slots()), DiffuseModule.Strength(N, diff, dt), flip, iters)
      ensures target.Names() == RotateAll(old(target.Names()), Repeat(flip, iters))
      ensures old(target.AllZero()) ==> target.AllZero()
    {
      ghost var a := DiffuseModule.Strength(N, diff, dt);
      ghost var s0 := target.Slots();
      DiffuseRoundsRotate(s0, a, flip, iters);
      if target.AllZero() {
        DiffuseRoundsKeepZero(s0, a, flip, iters);
      }
      var i := 0;
      while i < iters
        invariant 0 <= i <= iters
        invariant Ready(target)
        invariant target.Slots() == DiffuseRounds(old(target.Slots()), a, flip, i)
      {
        var written := DiffuseModule.DiffuseStep(N, diff, dt, target.readTex.texels, target.prevTex.texels,
                                                 target.writeTex.texels);
        target.writeTex := target.writeTex.(texels := written);
        target.Flip(flip);
        i := i + 1;
      }
    }

    /**
     * `advect`: picks the pipeline for the target's format, then one dispatch
     * reading the target's read texture and `velocityTex` and writing its
     * write texture, then a flip. Any other format is an error raised before
     * anything is dispatched or rotated. The velocity texture is never the
     * texture the dispatch writes.
     */
    method Advect(target: ReadWritePrevTex, velocityTex: Texture, dt: real) returns (outcome: Outcome)
      requires Ready(target) && flip.IsPermutation()
      requires IsGrid(velocityTex.texels, N) && velocityTex.name != target.writeTex.name
      modifies target
      ensures Ready(target)
      ensures outcome.Ok? <==> target.format in {R32Float, RG32Float}
      ensures outcome.Ok? ==>
        target.Slots() == Rotate(Written(old(target.Slots()),
          AdvectModule.AdvectField(N, dt, target.format, sample,
            old(target.readTex.texels), velocityTex.texels, old(target.writeTex.texels))), flip)
      ensures outcome.InvalidTextureFormat? ==> target.Slots() == old(target.Slots())
      ensures outcome.Ok? ==> target.Names() == Rotate(old(target.Names()), flip)
      ensures old(target.AllZero()) && IsZero(velocityTex.texels) && AdvectModule.PreservesZero(sample) ==>
        target.AllZero()
    {
      var format := target.readTex.format;
      if format != R32Float && format != RG32Float {
        return InvalidTextureFormat;
      }
      ghost var readG, origG := target.readTex.texels, target.writeTex.texels;
      ghost var quiet := target.AllZero() && IsZero(velocityTex.texels) && AdvectModule.PreservesZero(sample);
      var written := AdvectModule.Advect(N, dt, format, sample, target.readTex.texels, velocityTex.texels,
                                         target.writeTex.texels);
      if quiet {
        AdvectModule.AdvectFieldZero(N, dt, format, sample, readG, velocityTex.texels, origG);
      }
      target.writeTex := target.writeTex.(texels := written);
      target.Flip(flip);
      outcome := Ok;
    }

    /**
     * `project`: `projectInit` (velocity's read texture to divergence, the
     * target's pressure damped), a flip of divergence and of the target,
     * `iters` rounds of `projectSolve` each followed by a flip of the target,
     * then `projectApply` into velocity's write texture and a flip of velocity.
     */
    method Project(pressureTarget: ReadWritePrevTex, dt: real, iters: nat)
      requires Ready(velocity) && Ready(divergence) && Ready(pressureTarget) && flip.IsPermutation()
      requires velocity != divergence && velocity != pressureTarget && divergence != pressureTarget
      requires Apart(velocity, divergence) && Apart(velocity, pressureTarget) && Apart(divergence, pressureTarget)
      modifies velocity, divergence, pressureTarget
      ensures Ready(velocity) && Ready(divergence) && Ready(pressureTarget)
      ensures Projected(velocity.Slots(), divergence.Slots(), pressureTarget.Slots())
        == ProjectEffect(old(velocity.Slots()), old(divergence.Slots()), old(pressureTarget.Slots()), flip, iters)
      ensures velocity.Names() == Rotate(old(velocity.Names()), flip)
      ensures divergence.Names() == Rotate(old(divergence.Names()), flip)
      ensures pressureTarget.Names() == RotateAll(old(pressureTarget.Names()), Repeat(flip, iters + 1))
      ensures old(velocity.AllZero() && divergence.AllZero() && pressureTarget.AllZero()) ==>
        velocity.AllZero() && divergence.AllZero() && pressureTarget.AllZero()
    {
      ghost var v, d, p := velocity.Slots(), divergence.Slots(), pressureTarget.Slots();
      ProjectRotates(v, d, p, flip, iters);
      if ZeroSlots(v) && ZeroSlots(d) && ZeroSlots(p) {
        ProjectKeepsZero(v, d, p, flip, iters);
      }
      ProjectInitStep(pressureTarget);
      SolveStep(pressureTarget, iters);
      ProjectApplyStep(pressureTarget);
    }

    /** `projectInit`, then a flip of divergence and of the pressure target. */
    method ProjectInitStep(pressureTarget: ReadWritePrevTex)
      requires Ready(velocity) && Ready(divergence) && Ready(pressureTarget) && flip.IsPermutation()
      requires divergence != pressureTarget
      requires Apart(velocity, divergence) && Apart(velocity, pressureTarget) && Apart(divergence, pressureTarget)
      modifies divergence, pressureTarget
      ensures Ready(divergence) && Ready(pressureTarget)
      ensures old(divergence.writeTex.name) !in {old(velocity.readTex.name), old(pressureTarget.readTex.name)}
      ensures old(pressureTarget.writeTex.name) !in {old(velocity.readTex.name), old(pressureTarget.readTex.name)}
      ensures divergence.Slots() == Rotate(Written(old(divergence.Slots()),
        ProjectModule.DivergenceField(N, old(velocity.readTex.texels), old(divergence.writeTex.texels))), flip)
      ensures pressureTarget.Slots() == Rotate(Written(old(pressureTarget.Slots()),
        ProjectModule.DampedPressureField(N, old(pressureTarget.readTex.texels), old(pressureTarget.writeTex.texels))), flip)
    {
      InLabels(velocity);
      InLabels(divergence);
      InLabels(pressureTarget);
      var divWritten, presWritten := ProjectModule.ProjectInit(N, velocity.readTex.texels,
        pressureTarget.readTex.texels, divergence.writeTex.texels, pressureTarget.writeTex.texels);
      divergence.writeTex := divergence.writeTex.(texels := divWritten);
      pressureTarget.writeTex := pressureTarget.writeTex.(texels := presWritten);
      divergence.Flip(flip);
      pressureTarget.Flip(flip);
    }

    /**
     * `iters` rounds of `projectSolve` against divergence's read texture,
     * each followed by a flip of the target. In every round the written
     * texture is neither input.
     */
    method SolveStep(pressureTarget: ReadWritePrevTex, iters: nat)
      requires Ready(divergence) && Ready(pressureTarget) && flip.IsPermutation()
      requires divergence != pressureTarget && Apart(divergence, pressureTarget)
      modifies pressureTarget
      ensures Ready(pressureTarget)
      ensures old(pressureTarget.writeTex.name) !in {divergence.readTex.name, old(pressureTarget.readTex.name)}
      ensures pressureTarget.writeTex.name !in {divergence.readTex.name, pressureTarget.readTex.name}
      ensures pressureTarget.Slots() == SolveRounds(old(pressureTarget.Slots()), divergence.readTex.texels, flip, iters)
    {
      InLabels(divergence);
      InLabels(pressureTarget);
      var i := 0;
      while i < iters
        invariant 0 <= i <= iters
        invariant Ready(pressureTarget)
        invariant pressureTarget.Slots() == SolveRounds(old(pressureTarget.Slots()), divergence.readTex.texels, flip, i)
        invariant pressureTarget.writeTex.name !in {divergence.readTex.name, pressureTarget.readTex.name}
      {
        var written := ProjectModule.ProjectSolve(N, divergence.readTex.texels, pressureTarget.readTex.texels,
                                                  pressureTarget.writeTex.texels);
        pressureTarget.writeTex := pressureTarget.writeTex.(texels := written);
        pressureTarget.Flip(flip);
        InLabels(pressureTarget);
        i := i + 1;
      }
    }

    /** `projectApply` into velocity's write texture, then a flip of velocity. */
    method ProjectApplyStep(pressureTarget: ReadWritePrevTex)
      requires Ready(velocity) && Ready(pressureTarget) && flip.IsPermutation()
      requires velocity != pressureTarget && Apart(velocity, pressureTarget)
      modifies velocity
      ensures Ready(velocity)
      ensures old(velocity.writeTex.name) !in {old(velocity.readTex.name), pressureTarget.readTex.name}
      ensures velocity.Slots() == Rotate(Written(old(velocity.Slots()),
        ProjectModule.ApplyField(N, old(velocity.readTex.texels), pressureTarget.readTex.texels,
          old(velocity.writeTex.texels))), flip)
    {
      InLabels(velocity);
      InLabels(pressureTarget);
      var written := ProjectModule.ProjectApply(N, velocity.readTex.texels, pressureTarget.readTex.texels,
                                                velocity.writeTex.texels);
      velocity.writeTex := velocity.writeTex.(texels := written);
      velocity.Flip(flip);
    }

    /**
     * `splat`: one dispatch reading density's and velocity's read textures
     * and writing their write textures (bound as the shader declares them),
     * then a flip of density and of velocity.
     */
    method Splat(position: Vec2, impulse: Vec2, radius: real, amount: real)
      requires Ready(density) && Ready(velocity) && density != velocity && Apart(density, velocity)
      requires flip.IsPermutation()
      modifies density, velocity
      ensures Ready(density) && Ready(velocity)
      ensures old(density.writeTex.name) !in {old(density.readTex.name), old(velocity.readTex.name)}
      ensures old(velocity.writeTex.name) !in {old(density.readTex.name), old(velocity.readTex.name)}
      ensures radius == 0.0 ==>
        density.Slots() == Rotate(old(density.Slots()), flip) && velocity.Slots() == Rotate(old(velocity.Slots()), flip)
      ensures radius != 0.0 ==>
        && density.Slots() == Rotate(Written(old(density.Slots()),
             SplatModule.SplatDensityField(N, position, impulse, radius, amount, length,
               old(density.readTex.texels), old(velocity.readTex.texels), old(density.writeTex.texels))), flip)
        && velocity.Slots() == Rotate(Written(old(velocity.Slots()),
             SplatModule.SplatVelocityField(N, position, impulse, radius, amount, length,
               old(density.readTex.texels), old(velocity.readTex.texels), old(velocity.writeTex.texels))), flip)
      ensures density.Names() == Rotate(old(density.Names()), flip)
      ensures velocity.Names() == Rotate(old(velocity.Names()), flip)
    {
      InLabels(density);
      InLabels(velocity);
      SplatBindingsMatchShader(density.Slots(), velocity.Slots());
      var view := ShaderView(SplatEntries(density.Slots(), velocity.Slots())).value;
      var dWritten, vWritten := SplatModule.Splat(N, position, impulse, radius, amount, length,
        view.densityRead.texels, view.velocityRead.texels, view.densityWrite.texels, view.velocityWrite.texels);
      density.writeTex := density.writeTex.(texels := dWritten);
      velocity.writeTex := velocity.writeTex.(texels := vWritten);
      density.Flip(flip);
      velocity.Flip(flip);
    }

    /**
     * The start of the frame callback. With the pointer's button down it
     * splats at the pointer's position, with an impulse of 0.1 times the
     * pointer's motion since the last frame, and swaps density; otherwise no
     * splat is dispatched and density and velocity are only flipped.
     */
    method PointerStep()
      requires Ready(density) && Ready(velocity) && density != velocity && Apart(density, velocity)
      requires flip.IsPermutation()
      modifies density, velocity
      ensures Ready(density) && Ready(velocity)
      ensures pointer.down ==>
        && density.Slots() == Rotate(Rotate(Written(old(density.Slots()),
             SplatModule.SplatDensityField(N, pointer.Position(), pointer.Impulse(), SplatRadius, SplatAmount, length,
               old(density.readTex.texels), old(velocity.readTex.texels), old(density.writeTex.texels))), flip),
             SwapRotation)
        && velocity.Slots() == Rotate(Written(old(velocity.Slots()),
             SplatModule.SplatVelocityField(N, pointer.Position(), pointer.Impulse(), SplatRadius, SplatAmount, length,
               old(density.readTex.texels), old(velocity.readTex.texels), old(velocity.writeTex.texels))), flip)
      ensures !pointer.down ==>
        density.Slots() == Rotate(old(density.Slots()), flip) && velocity.Slots() == Rotate(old(velocity.Slots()), flip)
      ensures density.Names() == RotateAll(old(density.Names()), PointerStepRotations(flip, pointer.down))
      ensures velocity.Names() == Rotate(old(velocity.Names()), flip)
      ensures !pointer.down && old(density.AllZero() && velocity.AllZero()) ==> density.AllZero() && velocity.AllZero()
    {
      ghost var d0 := density.Names();
      RotateAllSnoc(d0, [], flip);
      RotateAllSnoc(d0, [flip], SwapRotation);
      if pointer.down {
        Splat(pointer.Position(), pointer.Impulse(), SplatRadius, SplatAmount);
        density.Swap();
      } else {
        density.Flip(flip);
        velocity.Flip(flip);
      }
    }

    /**
     * The velocity step of the frame callback: project into pressure1, swap
     * velocity, advect velocity by its own prev texture, project into
     * pressure2, each projection with `iters` solver rounds (the frame
     * passes 100). An `advect` error ends the step where it is raised.
     */
    method VelocityStep(iters: nat) returns (outcome: Outcome)
      requires Ready(velocity) && Ready(divergence) && Ready(pressure1) && Ready(pressure2) && flip.IsPermutation()
      requires velocity != divergence && velocity != pressure1 && velocity != pressure2
      requires divergence != pressure1 && divergence != pressure2 && pressure1 != pressure2
      requires Apart(velocity, divergence) && Apart(velocity, pressure1) && Apart(velocity, pressure2)
      requires Apart(divergence, pressure1) && Apart(divergence, pressure2)
      modifies velocity, divergence, pressure1, pressure2
      ensures Ready(velocity) && Ready(divergence) && Ready(pressure1) && Ready(pressure2)
      ensures outcome.Ok? <==> velocity.format in {R32Float, RG32Float}
      ensures outcome.Ok? ==>
        && velocity.Names() == RotateAll(old(velocity.Names()), [flip, SwapRotation, flip, flip])
        && divergence.Names() == RotateAll(old(divergence.Names()), Repeat(flip, 2))
        && pressure1.Names() == RotateAll(old(pressure1.Names()), Repeat(flip, iters + 1))
        && pressure2.Names() == RotateAll(old(pressure2.Names()), Repeat(flip, iters + 1))
      ensures
        && old(velocity.AllZero() && divergence.AllZero() && pressure1.AllZero() && pressure2.AllZero())
        && AdvectModule.PreservesZero(sample)
        ==> velocity.AllZero() && divergence.AllZero() && pressure1.AllZero() && pressure2.AllZero()
    {
      ghost var v0, div0 := velocity.Names(), divergence.Names();
      Project(pressure1, FrameDt, iters);
      outcome := SelfAdvect();
      if outcome.InvalidTextureFormat? {
        return;
      }
      Project(pressure2, FrameDt, iters);
      FourRotations(v0, flip, SwapRotation, flip, flip);
      TwoFlips(div0, flip);
    }

    /**
     * The middle of the velocity step: swap velocity, then advect it by its
     * own prev texture, which the swap leaves in place.
     */
    method SelfAdvect() returns (outcome: Outcome)
      requires Ready(velocity) && flip.IsPermutation()
      modifies velocity
      ensures Ready(velocity)
      ensures outcome.Ok? <==> velocity.format in {R32Float, RG32Float}
      ensures outcome.Ok? ==>
        velocity.Slots() == Rotate(Written(Rotate(old(velocity.Slots()), SwapRotation),
          AdvectModule.AdvectField(N, FrameDt, velocity.format, sample,
            old(velocity.writeTex.texels), old(velocity.prevTex.texels), old(velocity.readTex.texels))), flip)
      ensures outcome.Ok? ==> velocity.Names() == Rotate(Rotate(old(velocity.Names()), SwapRotation), flip)
      ensures old(velocity.AllZero()) && AdvectModule.PreservesZero(sample) ==> velocity.AllZero()
    {
      velocity.Swap();
      assert velocity.prevTex.name != velocity.writeTex.name;
      outcome := Advect(velocity, velocity.prevTex, FrameDt);
    }

    /**
     * The density step of the frame callback: swap density, `iters` rounds
     * of diffusion with diff = 0 (the frame passes 20), swap, advect by
     * velocity's read texture.
     */
    method DensityStep(iters: nat) returns (outcome: Outcome)
      requires Ready(density) && Ready(velocity) && Apart(density, velocity) && flip.IsPermutation()
      modifies density
      ensures Ready(density)
      ensures outcome.Ok? <==> density.format in {R32Float, RG32Float}
      ensures outcome.Ok? ==>
        density.Names() == RotateAll(old(density.Names()), DensityStepRounds(flip, iters))
      ensures old(density.AllZero()) && velocity.AllZero() && AdvectModule.PreservesZero(sample) ==>
        density.AllZero()
    {
      ghost var d0 := density.Names();
      density.Swap();
      Diffuse(density, 0.0, FrameDt, iters);
      density.Swap();
      assert velocity.readTex.name in velocity.Labels && density.writeTex.name in density.Labels;
      outcome := Advect(density, velocity.readTex, FrameDt);
      if outcome.InvalidTextureFormat? {
        return;
      }
      DensityStepComposes(d0, flip, iters);
    }

    /**
     * The work of the frame callback on the fields: the pointer step (which
     * reads the pointer's state), the velocity step and the density step.
     * An `advect` error ends it where it is raised.
     */
    method Step() returns (outcome: Outcome)
      requires Valid()
      modifies density, velocity, divergence, pressure1, pressure2
      ensures Valid()
      ensures outcome.Ok? <==> density.format in {R32Float, RG32Float} && velocity.format in {R32Float, RG32Float}
      ensures outcome.Ok? ==>
        && density.Names() == RotateAll(old(density.Names()), DensityFrameRotations(flip, pointer.down))
        && velocity.Names() == RotateAll(old(velocity.Names()), VelocityFrameRotations(flip))
        && divergence.Names() == RotateAll(old(divergence.Names()), Repeat(flip, 2))
        && pressure1.Names() == RotateAll(old(pressure1.Names()), Repeat(flip, PressureIters + 1))
        && pressure2.Names() == RotateAll(old(pressure2.Names()), Repeat(flip, PressureIters + 1))
      ensures old(Quiescent()) && !pointer.down && AdvectModule.PreservesZero(sample) ==> Quiescent()
    {
      ghost var d0, v0 := density.Names(), velocity.Names();
      PointerStep();
      outcome := FluidStep();
      if outcome.Ok? {
        FrameComposes(d0, v0, flip, pointer.down);
      }
    }

    /**
     * The solver part of the frame callback: the velocity step with 100
     * solver rounds per projection, then the density step with 20 diffusion
     * rounds. An `advect` error ends it where it is raised.
     */
    method FluidStep() returns (outcome: Outcome)
      requires Valid()
      modifies density, velocity, divergence, pressure1, pressure2
      ensures Valid()
      ensures outcome.Ok? <==> density.format in {R32Float, RG32Float} && velocity.format in {R32Float, RG32Float}
      ensures outcome.Ok? ==>
        && density.Names() == RotateAll(old(density.Names()), DensityStepRotations(flip))
        && velocity.Names() == RotateAll(old(velocity.Names()), [flip, SwapRotation, flip, flip])
        && divergence.Names() == RotateAll(old(divergence.Names()), Repeat(flip, 2))
        && pressure1.Names() == RotateAll(old(pressure1.Names()), Repeat(flip, PressureIters + 1))
        && pressure2.Names() == RotateAll(old(pressure2.Names()), Repeat(flip, PressureIters + 1))
      ensures old(Quiescent()) && AdvectModule.PreservesZero(sample) ==> Quiescent()
    {
      outcome := VelocityStep(PressureIters);
      if outcome.InvalidTextureFormat? {
        return;
      }
      outcome := DensityStep(DiffuseIters);
    }

    /**
     * The frame callback: the step on the fields, whose pointer step reads
     * the pointer before this frame moves it on; then the pointer's previous
     * position becomes its current one.
     */
    method Frame() returns (outcome: Outcome)
      requires Valid()
      modifies Fields(), pointer
      ensures Valid()
      ensures outcome.Ok? <==> density.format in {R32Float, RG32Float} && velocity.format in {R32Float, RG32Float}
      ensures outcome.Ok? ==>
        && density.Names() == RotateAll(old(density.Names()), DensityFrameRotations(flip, old(pointer.down)))
        && velocity.Names() == RotateAll(old(velocity.Names()), VelocityFrameRotations(flip))
        && divergence.Names() == RotateAll(old(divergence.Names()), Repeat(flip, 2))
        && pressure1.Names() == RotateAll(old(pressure1.Names()), Repeat(flip, PressureIters + 1))
        && pressure2.Names() == RotateAll(old(pressure2.Names()), Repeat(flip, PressureIters + 1))
      ensures pointer.x == old(pointer.x) && pointer.y == old(pointer.y) && pointer.down == old(pointer.down)
      ensures outcome.Ok? ==> pointer.px == old(pointer.x) && pointer.py == old(pointer.y)
      ensures outcome.InvalidTextureFormat? ==> pointer.px == old(pointer.px) && pointer.py == old(pointer.py)
      ensures old(Quiescent()) && !old(pointer.down) && AdvectModule.PreservesZero(sample) ==> Quiescent()
    {
      outcome := Step();
      if outcome.Ok? {
        pointer.Settle();
      }
    }
  }

  /**
   * The density (r32float) and velocity (rg32float) fields, every texture of
   * each holding the seeded disk uploaded from the seeding loops' data.
   */
  method SeededFields() returns (density: ReadWritePrevTex, velocity: ReadWritePrevTex)
    ensures fresh(density) && fresh(velocity)
    ensures Ready(density) && Ready(velocity) && Apart(density, velocity)
    ensures density.Labels == Members(FieldLabels(DensityLabel))
    ensures velocity.Labels == Members(FieldLabels(VelocityLabel))
    ensures density.format == R32Float && velocity.format == RG32Float
    ensures Holds(density, Seeding.SeedGrid(N)) && Holds(velocity, Seeding.SeedGrid(N))
  {
    var densityData := Seeding.SeedDensity(N);
    var velocityData := Seeding.SeedVelocity(N);
    var densityGrid, velocityGrid := Seeding.UnpackR(densityData[..], N), Seeding.UnpackRG(velocityData[..], N);
    density := new ReadWritePrevTex(Some(DensityLabel), R32Float, N, Some(densityGrid));
    velocity := new ReadWritePrevTex(Some(VelocityLabel), RG32Float, N, Some(velocityGrid));
    FieldLabelsApart();
  }

  /** An r32float field whose textures are zero-filled, as a fresh texture is. */
  method ZeroField(descriptorLabel: string) returns (field: ReadWritePrevTex)
    ensures fresh(field) && Ready(field) && field.format == R32Float && Holds(field, ZeroGrid(N))
    ensures field.Labels == Members(FieldLabels(descriptorLabel))
  {
    field := new ReadWritePrevTex(Some(descriptorLabel), R32Float, N, None);
  }

  /** The descriptor labels of the renderer's five fields. */
  const DensityLabel: string := "density texture"
  const VelocityLabel: string := "velocity texture"
  const DivergenceLabel: string := "divergence texture"
  const Pressure1Label: string := "pressure1 texture"
  const Pressure2Label: string := "pressure2 texture"

  /** The labels of a field's three textures. */
  function FieldLabels(base: string): Triple<string> {
    Triple(TextureLabel(base, 0), TextureLabel(base, 1), TextureLabel(base, 2))
  }

  /** Two fields whose descriptor labels differ at position `k` share no texture label. */
  lemma LabelsOfDifferentFields(base1: string, base2: string, k: nat)
    requires k < |base1| && k < |base2| && base1[k] != base2[k]
    ensures Members(FieldLabels(base1)) !! Members(FieldLabels(base2))
  {
    forall i: nat, j: nat | i < 3 && j < 3 ensures TextureLabel(base1, i) != TextureLabel(base2, j) {
      assert TextureLabel(base1, i)[k] == base1[k];
      assert TextureLabel(base2, j)[k] == base2[k];
    }
  }

  /** The five descriptor labels give the five fields pairwise disjoint texture labels. */
  lemma FieldLabelsApart()
    ensures var d, v, div := Members(FieldLabels(DensityLabel)), Members(FieldLabels(VelocityLabel)),
                             Members(FieldLabels(DivergenceLabel));
      var p1, p2 := Members(FieldLabels(Pressure1Label)), Members(FieldLabels(Pressure2Label));
      && d !! v && d !! div && d !! p1 && d !! p2 && v !! div && v !! p1 && v !! p2
      && div !! p1 && div !! p2 && p1 !! p2
  {
    LabelsOfDifferentFields(DensityLabel, VelocityLabel, 0);
    LabelsOfDifferentFields(DensityLabel, DivergenceLabel, 1);
    LabelsOfDifferentFields(DensityLabel, Pressure1Label, 0);
    LabelsOfDifferentFields(DensityLabel, Pressure2Label, 0);
    LabelsOfDifferentFields(VelocityLabel, DivergenceLabel, 0);
    LabelsOfDifferentFields(VelocityLabel, Pressure1Label, 0);
    LabelsOfDifferentFields(VelocityLabel, Pressure2Label, 0);
    LabelsOfDifferentFields(DivergenceLabel, Pressure1Label, 0);
    LabelsOfDifferentFields(DivergenceLabel, Pressure2Label, 0);
    LabelsOfDifferentFields(Pressure1Label, Pressure2Label, 8);
  }

  /** The texture in each slot of a valid field is one of the field's textures. */
  lemma InLabels(f: ReadWritePrevTex)
    requires f.Valid()
    ensures f.readTex.name in f.Labels && f.writeTex.name in f.Labels && f.prevTex.name in f.Labels
  {
  }
}
