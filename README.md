# webgpu-stable-fluids, modelled in Dafny

A model of the core of a WebGPU "stable fluids" solver. The solver keeps five
fields on an (N + 2) x (N + 2) grid (N = 1024, a one-cell ghost border around
the interior 1..N):

- density (r32float)
- velocity (rg32float)
- divergence (r32float)
- two pressure fields (r32float)

Each field is a `ReadWritePrevTex`: three textures held in a read, a write
and a prev slot. Every frame the host code runs the following, then rotates
the slots of the fields involved:

- a splat under the pointer, when a button is down;
- a velocity step: project, swap, advect the velocity by itself, project;
- a density step: swap, 20 diffusion rounds, swap, advect by the velocity.

Each kernel runs as one compute dispatch.

The project has nine modules:

| module | file | what it holds |
|---|---|---|
| `Textures` | `textures.dfy` | texels (pairs of reals), grids, texture formats, what a `textureStore` keeps for each format, and the texture value (label, format, texels). |
| `Division` | `division.dfy` | order facts about dividing by a positive real, shared by the kernels' bounds. |
| `ReadWritePrev` | `read_write_prev_tex.dfy` | slot assignments as values (`Triple`, `Rotation`, `Rotate`, `RotateAll`) and the class `ReadWritePrevTex` (constructor, `Swap`, `Commit`, `Flip`) specified by them. |
| `DiffuseModule` | `diffuse_module.dfy` | the `diffuseStep` kernel |
| `ProjectModule` | `project_module.dfy` | the `projectInit`, `projectSolve` and `projectApply` kernels |
| `AdvectModule` | `advect_module.dfy` | the `advect` kernel (MacCormack) |
| `SplatModule` | `splat_module.dfy` | the `splat` kernel |
| `Seeding` | `seeding.dfy` | the loops that fill the initial density and velocity arrays, and the layout the upload reads them with. |
| `Renderer` | `renderer.dfy` | dispatch sizing, the splat bind group, the pointer state, and the class `Renderer`. `Renderer` holds the five fields and models the `diffuse`, `advect`, `project` and `splat` helpers and the frame callback. |

Each kernel is modelled in two parts:

- **A field function** gives the whole write texture after one dispatch: interior cells get the kernel's value and border cells keep what the texture held before.
- **A method with a loop** visits every texel of the padded grid and is proved to produce exactly that field. Its inputs are the grids the bound textures hold, so every invocation reads the values the dispatch started with.

### Textures, labels and `flip`

Textures are values: a label, a format and a grid. The host moves texture
references between slots. Moving the values is the same here because each
texture lives in exactly one slot of one field. "Which texture is where" is
tracked by label. The constructor names texture i of a field
"`<descriptor label> RWP #i`", and `ReadWritePrevTex.Valid` keeps the three
labels of a field pairwise distinct.

The renderer calls `flip()` after every dispatch, but the class as written
defines only `swap` and `commit`. The model does not guess what `flip()` does:

- `Flip(rotation)` applies an arbitrary permutation of the three slots.
- The `Renderer` holds that permutation as a constant.
- Every result holds for every permutation, swap included.

### What is proved

- **Rotations.** Swap and commit exchange their two slots and are involutions. Any sequence of permutations keeps a field's three textures and keeps them distinct.
- **Helpers.** For each helper, the model states the slots afterwards and how many rotations follow each dispatch.
- **No aliasing.** Every dispatch writes a texture that none of its inputs is. Within a field this follows from the distinct labels. Across fields it follows from the five fields' labels being pairwise disjoint, which `Renderer.Valid` keeps and the constructor establishes from the descriptor labels.
- **Formats.** Every kernel that writes an r32float texture leaves 0 in the second component of every texel, so such a texture only ever holds what its format can hold.
- **Errors.** `advect` rejects any format other than r32float and rg32float before dispatching or rotating anything, and the frame stops there.
- **Seeding.** The seeding loops write exactly the seeded disk, at in-bounds indices. The declared row pitch makes the upload read those indices as the seeded grid.
- **Kernel formulas.** The model states the update formula of every kernel. It proves the bounds, fixed points and locality properties the kernels promise.
- **A fluid at rest.** Zero fields stay zero through a frame with no button down.

## Model

| member | source | states |
|---|---|---|
| ReadWritePrev.Rotate | src/ReadWritePrevTex.ts:27-33 | A permutation of the slots keeps the same three occupants, and three distinct occupants stay distinct. |
| ReadWritePrev.SwapExchangesReadWrite | src/ReadWritePrevTex.ts:27-29 | `swap` puts the write texture in the read slot and the read texture in the write slot; prev is unchanged. |
| ReadWritePrev.SwapInvolution | src/ReadWritePrevTex.ts:27-29 | Two swaps restore the original assignment. |
| ReadWritePrev.CommitExchangesPrevWrite | src/ReadWritePrevTex.ts:31-33 | `commit` exchanges prev and write; read is unchanged. |
| ReadWritePrev.CommitInvolution | src/ReadWritePrevTex.ts:31-33 | Two commits restore the original assignment. |
| ReadWritePrev.RotateAllPermutes | src/ReadWritePrevTex.ts:16-33 | After any sequence of slot permutations (swap, commit or flip), the slots hold the same three textures, still pairwise distinct. |
| ReadWritePrev.NamesFollowRotations | src/ReadWritePrevTex.ts:27-33 | The labels of the slots after a sequence of rotations are the original labels rotated by that sequence. |
| ReadWritePrev.LabelsDiffer | src/ReadWritePrevTex.ts:15-17 | The labels "`base` RWP #0", "#1" and "#2" differ pairwise, whatever the descriptor label. |
| ReadWritePrev.ReadWritePrevTex.constructor | src/ReadWritePrevTex.ts:6-25 | Creates textures #0, #1, #2 in the read, write and prev slots, all of the descriptor's format. A missing label becomes "<unnamed>". With initial data, all three hold it; otherwise all three are zero. |
| ReadWritePrev.ReadWritePrevTex.Swap | src/ReadWritePrevTex.ts:27-29 | The new slots are the old ones with read and write exchanged; the labels stay three distinct members of the field. |
| ReadWritePrev.ReadWritePrevTex.Commit | src/ReadWritePrevTex.ts:31-33 | The new slots are the old ones with prev and write exchanged; the labels stay three distinct members of the field. |
| ReadWritePrev.ReadWritePrevTex.Flip | src/Renderer.tsx:452 | The slots are permuted by the given permutation; the labels stay three distinct members of the field. |
| Textures.StoreTexelHoldsFormat | src/advectModule.ts:83 | Storing twice stores the same texel, a store into r32float leaves 0 in the second component, and a texel that already has 0 there is stored unchanged. |
| DiffuseModule.DiffuseStep | src/diffuseModule.ts:20-35 | The dispatch loop writes every interior cell with (prev + a(four read neighbours)) / (1 + 4a), a = dt·diff·N², and leaves border cells as they were. |
| DiffuseModule.NoDiffusionCopiesPrev | src/diffuseModule.ts:24-32 | With diff = 0, as the frame passes it, a cell's new value is its prev value. |
| DiffuseModule.DiffuseValueZero | src/diffuseModule.ts:26-32 | Zero prev and zero neighbours give zero. |
| DiffuseModule.DiffuseValueBounded | src/diffuseModule.ts:26-32 | For a ≥ 0 the new value lies between any bounds of prev and the four neighbours. |
| DiffuseModule.DiffuseFieldZero | src/diffuseModule.ts:20-35 | A dispatch over all-zero textures leaves an all-zero write texture. |
| DiffuseModule.DiffuseFieldSingleChannel | src/diffuseModule.ts:17-33 | The write texture is r32float: a dispatch into a texture with 0 in every second component keeps it so. |
| ProjectModule.ProjectInit | src/projectModule.ts:22-50 | Interior cells get divergence −0.5(h(vx[x+1]−vx[x−1]) + h(vy[y+1]−vy[y−1])), h = 1/N. Pressure becomes 0.99 times the read pressure, not zero. Border cells are not written. |
| ProjectModule.ProjectSolve | src/projectModule.ts:52-77 | Interior cells get 0.99 · (div + four pressure neighbours) / 4; border cells are not written. |
| ProjectModule.ProjectApply | src/projectModule.ts:79-104 | Interior cells get velocity − 0.5 · (pressure differences) / h; border cells are not written. |
| ProjectModule.UniformVelocityIsDivergenceFree | src/projectModule.ts:31-41 | A spatially uniform velocity has zero divergence. |
| ProjectModule.ConstantPressureKeepsVelocity | src/projectModule.ts:90-103 | Constant pressure leaves the velocity unchanged. |
| ProjectModule.ApplySubtractsScaledGradient | src/projectModule.ts:90-103 | Dividing by h = 1/N is multiplying by N: each component loses 0.5·N times its central pressure difference. |
| ProjectModule.InitFieldsZero | src/projectModule.ts:31-46 | Zero velocity and zero pressure give zero divergence and zero damped pressure. |
| ProjectModule.SolveFieldZero | src/projectModule.ts:65-74 | Zero divergence and zero pressure give zero pressure. |
| ProjectModule.ApplyFieldZero | src/projectModule.ts:90-103 | Zero velocity and zero pressure give zero velocity. |
| ProjectModule.PressureFieldsSingleChannel | src/projectModule.ts:18-74 | Divergence and pressure are r32float: `projectInit` and `projectSolve` keep 0 in every second component of the textures they write. |
| AdvectModule.Clamp | src/advectModule.ts:56-60 | WGSL `clamp` lands in [low, high] and is the identity inside it. |
| AdvectModule.ClampPos | src/advectModule.ts:56-60 | A clamped position lies in [0.5, N + 0.5] on both axes and is unchanged if it already did. |
| AdvectModule.TracedPositionsInRange | src/advectModule.ts:54-76 | The backward, forward and forward-back positions all lie in [0.5, N + 0.5], whatever the velocities. `textureDimensions` reports N + 2. |
| AdvectModule.SampleCoordInTexture | src/advectModule.ts:52-77 | A sampled coordinate (p + 0.5)/(N + 2) lies in [1/(N+2), (N+1)/(N+2)]. |
| AdvectModule.MacCormackIsMidpoint | src/advectModule.ts:80-81 | backward + 0.5·(forwardBack − backward) is the midpoint of the two samples and lies between them. |
| AdvectModule.StillFluidTracesToCell | src/advectModule.ts:54-76 | With zero velocity at the cell and at the forward position, every traced position is the cell itself. |
| AdvectModule.MacCormackValueZero | src/advectModule.ts:49-84 | If sampling zero gives zero, the value over zero fields is zero. |
| AdvectModule.AdvectFieldZero | src/advectModule.ts:22-84 | If sampling zero gives zero, advecting a zero field by a zero velocity into a zero texture gives zero. |
| AdvectModule.AdvectFieldSingleChannel | src/advectModule.ts:19-83 | Advecting into an r32float texture keeps 0 in every second component, whatever the sampler returns. |
| AdvectModule.Advect | src/advectModule.ts:22-84 | The dispatch loop stores the MacCormack value at interior cells, through the target format, and leaves border cells as they were. |
| SplatModule.Splat | src/splatModule.ts:24-48 | Radius 0: neither write texture changes. Otherwise interior cells copy density and velocity from the read textures, plus f·amount and f·impulse when dist < radius, f = 1 − dist/radius. Border cells are not written. |
| SplatModule.SplatDensityFieldSingleChannel | src/splatModule.ts:20-46 | The density write texture is r32float: a splat keeps 0 in every second component. |
| SplatModule.FalloffInUnitInterval | src/splatModule.ts:39-40 | For radius > 0 and 0 ≤ dist < radius, f lies in (0, 1], and f = 1 exactly at dist = 0. |
| SplatModule.FarCellUnchanged | src/splatModule.ts:34-47 | A cell at or beyond the radius stores what it read. |
| SplatModule.DensityNeverDecreases | src/splatModule.ts:39-44 | With amount ≥ 0, no cell's density decreases. |
| SplatModule.CentreReceivesFullAmount | src/splatModule.ts:37-44 | When `length` is a norm, the cell at the splat position gains exactly `amount` and the full impulse, and no cell gains more than `amount`. |
| Seeding.Idx | src/Renderer.tsx:72 | The index y(N+2)+x of a cell of the padded grid is below (N+2)². |
| Seeding.IdxInjective | src/Renderer.tsx:72 | Two cells of the padded grid never share an index. |
| Seeding.IdxRoundTrip | src/Renderer.tsx:72 | The index determines the cell: x = i mod (N+2), y = i div (N+2). |
| Seeding.IdxOnto | src/Renderer.tsx:65-72 | Every index below (N+2)² is the index of a cell of the padded grid. |
| Seeding.UploadMatchesSeedLayout | src/Renderer.tsx:89-138 | With a row pitch of 4·(N+2)·channels bytes, the upload reads texel (x, y) at float offset channels · Idx(x, y), which is where the loops wrote it. `UnpackR` and `UnpackRG` read the data at that offset. |
| Seeding.SeedCellStep | src/Renderer.tsx:66-75 | One inner iteration writes 1 at the visited cell exactly when it is in the disk and changes no other cell. |
| Seeding.SeedDensity | src/Renderer.tsx:64-75 | Entry Idx(x, y) is 1 exactly for interior cells closer than 20 to ((N+2)/2, (N+2)/2) and 0 everywhere else, ghost border included. Unpacked as r32float, it is the seeded grid. |
| Seeding.SeedDensityColumn | src/Renderer.tsx:67-74 | The inner loop of column x seeds that column's disk cells and changes nothing else. |
| Seeding.SeedDensityGrid | src/Renderer.tsx:64-99 | The uploaded density texture is the seeded grid. |
| Seeding.SeedPairStep | src/Renderer.tsx:105-115 | One inner iteration writes (1, 0) at the visited cell's pair exactly when it is in the disk and changes no other entry. |
| Seeding.SeedVelocity | src/Renderer.tsx:103-115 | Entry 2·Idx(x, y) is 1 exactly in the disk and 0 elsewhere; entry 2·Idx(x, y) + 1 is always 0. Unpacked as rg32float, it is the seeded grid. |
| Seeding.SeedVelocityColumn | src/Renderer.tsx:106-114 | The inner loop of column x seeds that column's disk pairs and changes nothing else. |
| Seeding.SeedVelocityGrid | src/Renderer.tsx:103-139 | The uploaded velocity texture is the seeded grid. |
| Seeding.SeedBorderIsZero | src/Renderer.tsx:64-75 | No border cell is seeded. |
| Seeding.CentreIsSeeded | src/Renderer.tsx:66-73 | The centre cell is seeded (N even, N ≥ 1). |
| Renderer.WorkgroupCountIsCeiling | src/Renderer.tsx:446-449 | (extent + dim − 1) div dim is the ceiling: enough workgroups to cover the extent, and one fewer would not be. |
| Renderer.DispatchCoversGrid | src/Renderer.tsx:446-449 | Each axis gets 129 workgroups of 8, covering the 1026 texels. Invocations beyond the grid fail the interior test. |
| Renderer.SplatBindingsAsWrittenMismatch | src/Renderer.tsx:653-664 | As written, the shader's velocity read is density's prev texture and its velocity write is velocity's read texture. Bindings 5 and 6 are not in the shader's layout. |
| Renderer.SplatBindingsMatchShader | src/splatModule.ts:18-22 | The corrected entries match the layout and bind each field's read and write textures as the shader declares them. |
| Renderer.Pointer.constructor | src/Renderer.tsx:23-29 | The pointer starts at the origin with no button down. |
| Renderer.Pointer.OnMove | src/Renderer.tsx:32-36 | Context only: the listener that sets the state `Frame` reads; no frame calls it. The position becomes the client position scaled from the page size to N. The previous position and the button are unchanged. |
| Renderer.Pointer.OnDown | src/Renderer.tsx:37-40 | Context only, as for `OnMove`. A move, then the button is down. |
| Renderer.Pointer.OnUp | src/Renderer.tsx:41-43 | Context only, as for `OnMove`. The button is up; the positions are unchanged. |
| Renderer.Pointer.Settle | src/Renderer.tsx:821-822 | The previous position becomes the current one. |
| Renderer.DiffuseRoundsRotate | src/Renderer.tsx:432-453 | `iters` diffusion rounds move the labels as `iters` flips do: one rotation per dispatch. |
| Renderer.DiffuseRoundsKeepZero | src/Renderer.tsx:432-453 | Diffusing an all-zero field leaves it all zero. |
| Renderer.SolveRoundsRotate | src/Renderer.tsx:558-587 | `iters` solver rounds move the pressure labels as `iters` flips do. |
| Renderer.SolveRoundsKeepZero | src/Renderer.tsx:558-587 | With zero divergence, solving an all-zero pressure leaves it all zero. |
| Renderer.ProjectRotates | src/Renderer.tsx:533-611 | `project` flips velocity once, divergence once and the pressure target iters + 1 times. |
| Renderer.ProjectKeepsZero | src/Renderer.tsx:533-611 | `project` on all-zero velocity, divergence and pressure leaves all three all zero. |
| Renderer.LabelsOfDifferentFields | src/Renderer.tsx:80-120 | Two fields whose descriptor labels differ at some position share no texture label, e.g. density and velocity. |
| Renderer.FieldLabelsApart | src/Renderer.tsx:80-179 | The descriptor labels "density texture", "velocity texture", "divergence texture", "pressure1 texture" and "pressure2 texture" give the five fields pairwise disjoint texture labels. |
| Renderer.SeededFields | src/Renderer.tsx:64-141 | Density (r32float) and velocity (rg32float) are fresh, sized, with the labels of their descriptors. Every texture of both holds the seeded grid. |
| Renderer.ZeroField | src/Renderer.tsx:143-189 | A fresh r32float field whose three textures are zero and carry the descriptor's labels. |
| Renderer.Renderer.constructor | src/Renderer.tsx:23-189 | The renderer starts with seeded density and velocity, zero divergence and pressures, the formats the descriptors name, pairwise disjoint labels, and the pointer at rest. |
| Renderer.Renderer.WritesApartFromReads | src/Renderer.tsx:412-800 | In a valid state, the write texture of every dispatch's target differs from every texture the helpers bind as that dispatch's input. |
| Renderer.Renderer.Diffuse | src/Renderer.tsx:412-456 | After `iters` rounds, each a `diffuseStep` dispatch then a flip, the target's slots are `DiffuseRounds` of the old slots. The labels are rotated by `iters` flips. A zero field stays zero. |
| Renderer.Renderer.Advect | src/Renderer.tsx:458-512 | Succeeds exactly for r32float and rg32float. Then the write texture receives the advected field and the slots are flipped once. Otherwise nothing changes. The velocity texture is never the written one (a precondition callers discharge). |
| Renderer.Renderer.ProjectInitStep | src/Renderer.tsx:533-555 | Divergence and pressure write textures receive `projectInit`'s fields, then both fields flip. Neither written texture is an input of the dispatch. |
| Renderer.Renderer.SolveStep | src/Renderer.tsx:558-587 | After `iters` rounds, each a `projectSolve` dispatch then a pressure flip, the pressure slots are `SolveRounds` of the old ones. In every round the written texture is neither input. |
| Renderer.Renderer.ProjectApplyStep | src/Renderer.tsx:590-611 | Velocity's write texture receives `projectApply`'s field, then velocity flips. The written texture is not an input. |
| Renderer.Renderer.Project | src/Renderer.tsx:514-622 | Velocity, divergence and pressure become `ProjectEffect` of the old ones. Velocity and divergence flip once, pressure iters + 1 times. Zero fields stay zero. |
| Renderer.Renderer.Splat | src/Renderer.tsx:624-679 | Radius 0: both fields are only flipped. Otherwise density's and velocity's write textures receive the splat fields, then both flip. Neither written texture is an input. Binds the shader's declared bindings 1 to 4 (see Findings). |
| Renderer.Renderer.PointerStep | src/Renderer.tsx:733-749 | Button down: the splat is centred at the pointer's position with an impulse of 0.1 times its motion since the last frame. Density gets `SplatDensityField` written, flipped, then swapped. Velocity gets `SplatVelocityField` written, then flipped. Button up: no splat, and both fields are only flipped, texels unchanged. The idle branch keeps zero fields zero. |
| Renderer.Renderer.SelfAdvect | src/Renderer.tsx:763-771 | Velocity swaps, then is advected by its own prev texture, which is never the written texture. |
| Renderer.Renderer.VelocityStep | src/Renderer.tsx:751-779 | Project into pressure1, swap, self-advect, project into pressure2. It stops at an `advect` error. States each field's label rotations, and that zero fields stay zero. |
| Renderer.Renderer.DensityStep | src/Renderer.tsx:781-802 | Swap, `iters` diffusion rounds with diff = 0, swap, advect by velocity's read texture. It stops at an `advect` error. States density's label rotation, and that zero stays zero. |
| Renderer.Renderer.FluidStep | src/Renderer.tsx:751-802 | The velocity step with 100 solver rounds, then the density step with 20 diffusion rounds. Succeeds exactly when density and velocity have advectable formats. On success each field's labels follow the two steps' rotations. Zero fields stay zero. |
| Renderer.Renderer.Step | src/Renderer.tsx:733-802 | The pointer step reads the pointer's button, position and motion. The three steps in order keep every field valid. Succeeds exactly when density and velocity have advectable formats. On success each field's labels follow the frame's rotation sequence. An idle frame keeps a fluid at rest at rest. |
| Renderer.Renderer.Frame | src/Renderer.tsx:723-822 | The step runs with the pointer as it stands. Only on success does the previous position become the current one. All of Step's guarantees carry over. |

## Left out

- `flip()` is not defined in `ReadWritePrevTex.ts`. `ReadWritePrev.ReadWritePrevTex.Flip` applies a permutation supplied by the caller, and no result depends on which permutation it is.
- `commit` is modelled and proved, but the renderer never calls it.
- GPU textures are modelled as values identified by their labels. The host's object references are not modelled; aliasing is ruled out through the labels, which the five fields keep pairwise disjoint.
- `Renderer.Renderer.Valid` does not fix the fields' formats. The constructor establishes them, and `Advect` checks them at run time, as the source does.
- `textureSampleLevel` with the linear sampler is a function parameter of type `AdvectModule.Sampler`. Interpolation accuracy is not modelled. The zero-field results assume only `AdvectModule.PreservesZero`: sampling an all-zero texture gives zero.
- WGSL `length` is a parameter of type `SplatModule.Length`. `SplatModule.CentreReceivesFullAmount` assumes only `SplatModule.IsNorm`: non-negative, and zero exactly at zero.
- `advectStam` is defined as `AdvectModule.StamValue`, but the `advect` entry point never calls it, so nothing is proved about it.
- Texel values are reals, not 32-bit floats, so rounding, NaN and infinities are not modelled. `Math.hypot(dx, dy) < 20` is modelled as dx² + dy² < 400, which is the same test on reals.
- DiffuseModule.DiffuseStep: requires 1 + 4a ≠ 0, because WGSL's float division by zero is not modelled. The frame passes diff = 0, so a = 0.
- Renderer.Pointer.OnMove: requires a non-zero page width and height, because JavaScript's division by zero, which gives an infinity, is not modelled.
- Dispatches run as sequential loops over frozen inputs, in recording order. GPU parallelism and queue submission are not modelled.
- Renderer.Renderer.Step: on an InvalidTextureFormat outcome the source submits nothing (src/Renderer.tsx:486, 819), so the texel writes of the frame's earlier dispatches do not happen; the model keeps them. Only the slot rotations before the error match the source on that path. The path is unreachable from the constructor, whose formats are constants.
- Renderer.Renderer.Splat: binds the shader's declared bindings 1-4 (the corrected version in ## Findings). As written, the six-entry bind group does not match the "auto" layout and is rejected, so on pointer-down frames the splat, and that frame's command buffer, do not run as modelled. `PointerStep`, `Step` and `Frame` inherit this.
- Uniform buffer writes are left out. The writes within one frame carry the same N and dt, so their queue ordering does not matter. The solver index `i` that `project` writes is unused by the kernels.
- The render pass, canvas configuration and queue submission are not modelled (src/Renderer.tsx:55-62, 681-720, 804-819). Neither are shader-module and pipeline creation, event-listener registration, or `getBoundingClientRect`.
- Renderer.Renderer.Step: states labels, formats, the outcome and zero preservation. The texel contents after a whole frame follow from the contracts of `Diffuse`, `Advect`, `Project` and `Splat`; they are not restated as one formula.
- Renderer.Renderer.Frame: as for `Step`, the texel contents after a frame are stated only through the helpers' contracts. The splat impulse of 0.1 times the pointer's motion is stated in `PointerStep`'s contract, not repeated in `Frame`'s.
- Renderer.Renderer.VelocityStep: texel contents are stated only through `Project`'s and `Advect`'s contracts.
- Renderer.Renderer.DensityStep: texel contents are stated only through `Diffuse`'s and `Advect`'s contracts.
- Renderer.Renderer.PointerStep: zero preservation is stated only for the idle branch, because a splat adds density.
- Renderer.Renderer.FluidStep: texel contents are stated only through the helpers' contracts, as for `Step`.
- Renderer.Renderer.VelocityStep and Renderer.Renderer.DensityStep: take the iteration counts as parameters; `Step` passes 100 and 20.

## Findings

| source | as written | input that shows it | evidently intended | confidence | as-written member | corrected member |
|---|---|---|---|---|---|---|
| src/Renderer.tsx:653-664 | The splat bind group binds density's read, write and prev textures at 1 to 3 and velocity's at 4 to 6. The shader declares densityRead, densityWrite, velocityRead and velocityWrite at 1 to 4 (src/splatModule.ts:18-22), and its layout is "auto". | Any frame with the pointer down. Bindings 5 and 6 are not in the layout the "auto" pipeline derives from the shader, so `createBindGroup` rejects the group. Had it been accepted, binding 3 would give the shader density's prev texture as its velocity input. | Bindings 1 to 4 are density read, density write, velocity read, velocity write. | not executed | Renderer.SplatBindingsAsWrittenMismatch | Renderer.SplatBindingsMatchShader |
