# Particle-ensemble orchestration of the N-body nucleon simulation

This project models the orchestration layer of a discrete-time simulation of
neutrons, protons and electrons under a uniform magnetic field. The layer
lives in `simulation.py`, in the `SimulationScene` class. The model covers:

- the padded slot count that the compute kernels' work-group size imposes;
- the species-partitioned mass, electric-charge and baryon-flag arrays;
- the two scene settings: a box scatter at rest, and two counter-streaming
  clusters;
- the projection of the position array onto the three pools of visual
  handles (`ParticlesContainer`);
- the per-frame update, which dispatches to the accelerator ("device")
  path or to the host path, runs `kernel_iterations` backend steps and then
  republishes the positions;
- the size normalisation of the `Frame` scene object.

The compute backend is an abstraction (module `Backends`). It is a tagged
variant `Backend = HostLoop(integrate) | DeviceKernels(kernel)`. Each variant
carries an abstract per-particle `Integrator` in place of the floating-point
force law.

- The host loop is `cpu_update` in `host.c`. It updates the slots in place
  and skips every slot whose mass is not positive (`host.c:71`). The source
  runs the slots in parallel (`host.c:69`); the model runs the host loop
  over slots 0 to n-1 in order.
- The device variant is `gpu_init`/`gpu_update`/`gpu_getval`. It holds the
  state uploaded once at start-up (`Device`). One step is one `gpu_update`
  call: the two kernels `compute_forces` and then `update_positions`
  (`host.c:47-48`). The kernel source is not part of this model. From the
  kernel names, their order and their argument lists (`host.c:37-38`) the
  model takes it that all forces are computed from the arrays before the
  step and only then are the positions advanced. So every slot of a device
  step is computed from the pre-step state, by an arbitrary function
  `g(s, j)` of the pre-step arrays; any deterministic kernel pair of that
  kind is covered. The host
  positions are overwritten only on readback.

`random()` is an injected stream `draws: nat -> Uniform`, where `Uniform` is
a real in [0, 1) and `draws(k)` is the k-th call's result. The draw order
follows the source:

- the neutron, proton and electron pools take three draws per handle, in
  that order. Each pool records the draw it starts at and the draw after its
  last (`firstDraw`, `nextDraw`), and each pool starts where the previous
  one stopped;
- the position loop then starts at the electron pool's `nextDraw`, that is
  at draw `3 * (nn + np + ne)`, and slot i uses three consecutive draws.

Positions, velocities and masses are exact reals.

Module layout: `particles.dfy` (vectors, species and their constants),
`layout.dfy` (padded count, species partition, projection), `frame.dfy`
(frame size), `backends.dfy` (abstract backend, host loop, device),
`ensembles.dfy` (ensemble arrays and scene settings) and `simulation.dfy`
(pools, the scene and its update). `options.dfy` holds the `Option` type.

### Behaviour worth noting

- **No spare slot when aligned.** The padded count at `simulation.py:126`
  (also `:168`) is the least multiple of the work-group size that holds all
  particles. When `nn + np + ne` is already a multiple of the work-group
  size, no padding slot is added; for example 8 particles in groups of 4
  give 8 slots. `Layout.PaddedCount` states this.
- **Errors.** The scene raises no error of its own for a bad setting, a bad
  configuration or mismatched pool counts. Its only exception is a failed
  `make` (`simulation.py:113`), which is out of scope.

## Model

| member | source | states |
|---|---|---|
| `Particles.Mass` | simulation.py:135-143 | each species' mass (939.565, 938.272, 0.511) is positive, so a zero mass can only mark padding |
| `Layout.PaddedCount` | simulation.py:126 | the slot count is a multiple of the work-group size; it holds every particle and is less than one group over; it is 0 for no particles and equals the particle count when that is aligned (no spare slot) |
| `Layout.PaddedCountIsLeast` | simulation.py:168 | no multiple of the work-group size that holds all particles is smaller than the padded count |
| `Layout.PositiveMassIffParticle` | simulation.py:132-144 | in a partitioned ensemble, slot i has positive mass exactly when i < nn + np + ne (the guard of host.c:71) |
| `Layout.PartitionedRanges` | simulation.py:135-144 | neutrons have charge 0 and baryon flag 1; protons charge +1 and flag 1; electrons charge -1 and flag 0; padding has mass, charge and flag 0 |
| `Layout.Project` | simulation.py:209-218 | the pools get exactly nn, np and ne positions; neutron handle i shows slot i, proton handle i slot nn + i, electron handle i slot nn + np + i |
| `Layout.ProjectInOrder` | simulation.py:210-218 | the three pools together show the particle slots in ensemble order, with no reordering across species and no padding slot |
| `Layout.ProjectIgnoresPadding` | simulation.py:211-217 | position arrays that agree on the particle slots give the same pools, so no padding slot is read |
| `Frames.NormaliseSize` | simulation.py:7-15 | sizes of length 0 to 3 are padded with 1s to three extents, keeping the given prefix; a longer list leaves the size unset (None) |
| `Ensembles.Spread` | simulation.py:149-151 | (u - 0.5) * extent of a uniform draw lies in [-extent/2, extent/2) |
| `Ensembles.ScatterPosition` | simulation.py:147-152 | a setting-1 position lies in x, y in [-50, 50) and z in [-5, 5) |
| `Ensembles.CounterStreamPosition` | simulation.py:189-199 | a setting-2 position has x in [-80, -40) for slots below nn and x in [40, 80) for all later slots, padding included; y and z lie in [-10, 10) |
| `Ensembles.SpeciesArrays` | simulation.py:132-144 | the three zero-filled arrays of n slots, written range by range, form the species partition; slot i has positive mass exactly when it holds a particle |
| `Ensembles.ScatterPositions` | simulation.py:146-152 | all n slots, padding included, get their setting-1 position from draws base + 3i, base + 3i + 1 and base + 3i + 2 |
| `Ensembles.CounterStreamPositions` | simulation.py:188-199 | slots below nn get the first cluster's position, and every later slot up to n the second cluster's |
| `Ensembles.CounterStreamVelocities` | simulation.py:201-205 | velocity (+1, 0, 0) below nn and (-1, 0, 0) for every later slot, padding included |
| `Ensembles.Ensemble.Scatter` | simulation.py:126-154 | setting 1: padded count, species partition, scattered positions, and zero velocity everywhere, in five newly allocated arrays |
| `Ensembles.Ensemble.CounterStream` | simulation.py:168-205 | setting 2: padded count, species partition, the two clusters' positions and opposite unit velocities, in five newly allocated arrays |
| `Backends.Visit` | host.c:70-107 | the host loop body changes only slot j, and only when m[j] > 0, to the integrator's result |
| `Backends.Sweep` | host.c:70-107 | after j iterations of the host loop, the slots from j on and all slots without positive mass are unchanged; the layout arrays are never written |
| `Backends.DeviceStep` | host.c:45-49 | a device step gives every slot the kernel's result computed from the pre-step state, and leaves the read-only mass and charge buffers alone |
| `Backends.Step` | host.c:63-108 | either backend's step keeps sizes and layout arrays; the host loop never moves a slot without positive mass |
| `Backends.Repeat` | simulation.py:231-232 | the loop `for i in range(kernel_iterations)` at :231 and :242 is k applications of one step; with k = 0 the state is left alone |
| `Backends.RepeatAdditive` | simulation.py:231-232 | running a steps and then c steps is running a + c steps |
| `Backends.IterateKeepsLayout` | simulation.py:242-243 | any number of backend steps keeps the array sizes and the mass and charge arrays |
| `Backends.Iterate` | simulation.py:231-243 | kernel_iterations backend steps keep the array sizes and the layout arrays |
| `Backends.IterateSucc` | simulation.py:231-232 | each further loop iteration applies the backend step once more |
| `Backends.IterateAdditive` | simulation.py:242-243 | two updates of a and c iterations leave the same state as one update of a + c iterations |
| `Backends.HostLoopKeepsMassless` | host.c:70-71 | on the host path, a slot without positive mass keeps its position and velocity through any number of steps |
| `Backends.HostLoopKeepsPadding` | host.c:71 | on the host path, the padding slots of a partitioned ensemble never change position or velocity |
| `Backends.HostUpdate` | host.c:63-108 | one host call updates the position and velocity arrays in place to exactly one host-loop step of the previous arrays |
| `Backends.Device.Init` | host.c:13-42 | the caller passes n as a whole number of work groups; the device's buffers are a copy of the five host arrays of n slots |
| `Backends.Device.Update` | host.c:45-49 | one `gpu_update` call, that is, the force kernel and then the position kernel, advances the resident state by one device step |
| `Backends.Device.GetVal` | host.c:52-55 | the readback overwrites the host position array with the device's positions |
| `Simulation.UsesDeviceIff` | simulation.py:224 | the device path is taken exactly for the three-letter names g/G, p/P, u/U; every other name takes the host path |
| `Simulation.LowerChar` | simulation.py:224 | the result is never an upper-case letter; it is a lower-case letter exactly when the input is a letter of either case; only upper-case letters are changed |
| `Simulation.Lower` | simulation.py:224 | `device.lower()` keeps the length and lower-cases each character on its own |
| `Simulation.UsesDevice` | simulation.py:224 | the dispatch test `self.device.lower() == 'gpu'`; its meaning is proved in `Simulation.UsesDeviceIff` |
| `Simulation.ParticlesContainer.constructor` | simulation.py:55-66 | a pool holds exactly count handles; handle i is placed in a 10 x 10 x 10 box from draws base + 3i to base + 3i + 2, and the pool leaves the stream at draw base + 3 * count |
| `Simulation.ParticlesContainer.ShowSlice` | simulation.py:213-215 | handles 0 to n-1 show slots off to off+n-1 of the position array |
| `Simulation.ParticlesContainer.SetPosition` | simulation.py:212 | moves one handle and no other |
| `Simulation.SimulationScene.constructor` | simulation.py:86-116 | the device name, setting, iteration count and work-group size default to "gpu", "1", 10 and 64; setting "1" builds 1000/1000/500 particles scattered at rest; setting "2" builds 1000 of each in the two clusters; the pools show the positions; the device holds the full initial state; the random stream is consumed in source order: neutron pool from draw 0, proton pool where the neutron pool stopped, electron pool where the proton pool stopped, and the position loop where the electron pool stopped (draw 3(nn + np + ne)); the ensemble, its arrays, the pools' arrays and the device are all newly allocated, so the caller may go on to update the scene |
| `Simulation.SimulationScene.SetPositions` | simulation.py:209-218 | afterwards every pool shows its species' slots in order, and the ensemble is unchanged |
| `Simulation.SimulationScene.Update` | simulation.py:223-227 | device path for the name "gpu" in any case: the resident state advances max(kernel_iterations, 0) device steps and the host positions are its readback. Host path otherwise: the ensemble advances max(kernel_iterations, 0) host-loop steps and the device is untouched. Both republish positions |
| `Simulation.SimulationScene.UpdateGpu` | simulation.py:229-237 | max(kernel_iterations, 0) `gpu_update` calls, then readback over the host positions; the host velocities stay stale; then the pools are republished |
| `Simulation.SimulationScene.UpdateCpu` | simulation.py:239-247 | max(kernel_iterations, 0) in-place host calls, then the pools are republished; with 0 or a negative count of iterations the positions, velocities, masses and charges are unchanged |

## Left out

- Kernel header generation (`simulation.py:96-109`) is left out. It is file
  output plus Python float formatting of `dt`, `1/dt`, `dt/2` and the field
  vector. For this reason the scene constructor takes neither `dt` nor
  `magnetic_field`.
- Building and loading the native library is left out (`simulation.py:110-116`).
  This covers `make` through a subprocess, the exception raised when it fails,
  and `cdll.LoadLibrary`. These are process and foreign-call operations.
- The force law and integration numerics of `cpu_update` (`host.c:72-107`)
  are left out; they are floating point. So are the OpenCL kernels, whose
  source `kernel.cl` is not part of this model. Both are the abstract
  `Integrator`.
- Backends.HostUpdate: the `#pragma omp parallel for` at `host.c:69` runs
  the slots concurrently. The model runs them sequentially in slot order,
  each slot seeing earlier writes. The interleavings of the parallel loop
  are not modelled.
- Backends.DeviceStep: models one `gpu_update` call, that is, the force
  kernel followed by the position kernel, as computing every slot from the
  state before the call. The non-blocking launch and the acceleration
  buffer between the two kernels are not modelled.
- Single-precision rounding (`c_float`) is not modelled, nor the always-zero
  fourth component of the `V3r` records. Values are exact reals. The
  half-open upper bounds of `Ensembles.Spread`, `Ensembles.ScatterPosition`
  and `Ensembles.CounterStreamPosition` hold for exact reals only. In the
  program's double and single precision these bounds are closed at the
  top: a draw just below 1 can round to the upper end, for example to 80.0
  at `simulation.py:196` or to 50.0 on the `c_float` store at `:152`.
- Rendering is left out: `Frame._createMesh`, `ParticlesContainer._createMesh`,
  billboard dimensions and materials (`simulation.py:18-46`, `:56-59`,
  `:68-71`), the frame built at `simulation.py:91`, and `SceneObject`
  construction. Handles are modelled only by the position they show.
- `reinit` (`simulation.py:220-221`) does nothing and is not modelled.
- The timing comments around the update (`clock`) and `test.c`, a timing
  benchmark, are left out.
- Simulation.SimulationScene.constructor: requires the scene setting to be
  "1" or "2". For any other value the source sets no ensemble, and the
  `gpu_init` call at `simulation.py:116` fails on the missing attribute.
  It also requires a positive work-group size. With 0 the source fails on
  the division at `simulation.py:126`. With a negative size, Python's floor
  division gives fewer slots than particles (for example 2496 for 2500
  particles in groups of -64, and 0 slots for a size of 1 - (nn + np + ne) or below, that is -2499 in setting 1 and -2999 in setting 2).
  One of the range writes then indexes past the end of the arrays: at
  `simulation.py:135-144` in setting 1 or `:177-186` in setting 2.
- Simulation.SimulationScene.constructor: takes its parameters in a
  different order from `SimulationScene.__init__` (`simulation.py:86`). The
  random stream and the two integrators come first, because they replace
  the scene manager and the native library. The device name, setting,
  iteration count and work-group size follow, with the source's defaults
  "gpu", "1", 10 and 64. `magnetic_field` and `dt` are not parameters (see
  the header-generation line above).
- Simulation.SimulationScene.constructor: uploads to the device before
  showing the positions on the pools; the source shows them first
  (`simulation.py:158`, `:207`) and uploads at `:116`. Nothing observable
  differs, because showing positions does not write the ensemble.
- Simulation.SimulationScene.Update: takes the frame time `dt`, like the
  source, and ignores it, like the source.
- Python 2 `str.lower` is modelled on ASCII letters only. That matches the C
  locale.
