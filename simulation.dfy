/**
 * The simulation scene: it builds the ensemble for a scene setting, hands it
 * to the compute backend, and after every batch of integration steps copies
 * the particle positions onto the visual handles of the three species pools.
 */
module Simulation {
  import opened Particles
  import opened Layout
  import opened Backends
  import opened Ensembles

  /** ASCII lower case of one character: upper-case letters become their
      lower-case letter, every other character is kept. */
  function LowerChar(c: char): (l: char)
    ensures !('A' <= l <= 'Z')
    ensures 'a' <= l <= 'z' <==> 'a' <= c <= 'z' || 'A' <= c <= 'Z'
    ensures l == c || 'A' <= c <= 'Z'
  {
    if 'A' <= c <= 'Z' then (c as int + 32) as char else c
  }

  /** ASCII lower case of a string: it keeps the length and works character
      by character. */
  function Lower(s: string): (t: string)
    ensures |t| == |s|
    ensures forall i :: 0 <= i < |s| ==> t[i] == LowerChar(s[i])
  {
    if s == [] then [] else
      var rest := Lower(s[1..]);
      assert forall i :: 1 <= i < |s| ==> ([LowerChar(s[0])] + rest)[i] == rest[i - 1];
      [LowerChar(s[0])] + rest
  }

  /** The update takes the device path for the device name "gpu" in any mix of
      cases, and the host path for every other name. */
  predicate UsesDevice(device: string)
  {
    Lower(device) == "gpu"
  }

  /** Exactly the eight spellings of "gpu" with any mix of cases take the device path. */
  lemma UsesDeviceIff(device: string)
    ensures UsesDevice(device) <==>
      |device| == 3 && device[0] in {'g', 'G'} && device[1] in {'p', 'P'} && device[2] in {'u', 'U'}
  {
    if |device| == 3 && device[0] in {'g', 'G'} && device[1] in {'p', 'P'} && device[2] in {'u', 'U'} {
      assert Lower(device) == "gpu";
    }
  }

  /** Number of iterations of range(k): none for a negative or zero count. */
  function RangeLength(k: int): nat
  {
    if k < 0 then 0 else k
  }

  /** A pool of visual handles for one species; handle i shows the position particles[i]. */
  class ParticlesContainer {
    const n: nat
    const particles: array<V3>
    /** The random stream as this pool found it and as it leaves it: the pool
        takes the draws from firstDraw up to, not including, nextDraw. */
    const firstDraw: nat
    const nextDraw: nat

    /** A pool of count handles, placed over a 10 x 10 x 10 box from the three
        draws that start at base + 3 * i for handle i; the next random() call
        after the pool is draw base + 3 * count. */
    constructor (count: nat, draws: Draws, base: nat)
      ensures n == count && particles.Length == count && fresh(particles)
      ensures firstDraw == base && nextDraw == base + 3 * count
      ensures forall i :: 0 <= i < count ==>
        particles[i] == V3(Spread(draws(base + 3 * i), 10.0),
                           Spread(draws(base + 3 * i + 1), 10.0),
                           Spread(draws(base + 3 * i + 2), 10.0))
    {
      n := count;
      firstDraw, nextDraw := base, base + 3 * count;
      var handles := new V3[count](_ => Origin);
      for i := 0 to count
        invariant forall k :: 0 <= k < i ==>
          handles[k] == V3(Spread(draws(base + 3 * k), 10.0),
                           Spread(draws(base + 3 * k + 1), 10.0),
                           Spread(draws(base + 3 * k + 2), 10.0))
      {
        handles[i] := V3(Spread(draws(base + 3 * i), 10.0),
                         Spread(draws(base + 3 * i + 1), 10.0),
                         Spread(draws(base + 3 * i + 2), 10.0));
      }
      particles := handles;
    }

    /** Shows slots off, off + 1, ..., off + n - 1 of the position array r on
        handles 0, 1, ..., n - 1, one handle at a time. */
    method ShowSlice(r: array<V3>, off: nat)
      requires particles.Length == n && off + n <= r.Length && r != particles
      modifies particles
      ensures particles[..] == r[off..off + n]
    {
      for i := 0 to n
        invariant particles[..i] == r[off..off + i]
      {
        SetPosition(i, r[i + off]);
      }
    }

    /** Moves handle i to position p. */
    method SetPosition(i: nat, p: V3)
      requires i < particles.Length
      modifies particles
      ensures particles[..] == old(particles[..])[i := p]
    {
      particles[i] := p;
    }
  }

  /** Draw index at which the position loop of a setting starts, once the
      three pools have taken three draws per handle. */
  function PositionDrawBase(nn: nat, np: nat, ne: nat): nat
  {
    3 * (nn + np + ne)
  }

  class SimulationScene {
    const device: string
    const kernelIterations: int
    const workGroupSize: nat
    const ensemble: Ensemble
    const neutronContainer: ParticlesContainer
    const protonContainer: ParticlesContainer
    const electronContainer: ParticlesContainer
    const host: Device
    const hostIntegrator: Integrator

    /** The scene's invariant: a valid ensemble with the padded slot count, one
        pool handle per particle of each species, five distinct position-like
        arrays, and a device whose buffers have the ensemble's slot count. */
    ghost predicate Valid()
      reads ensemble.m, ensemble.qe, ensemble.qn, host
    {
      workGroupSize > 0 &&
      ensemble.Valid() &&
      ensemble.n == PaddedCount(ensemble.nn + ensemble.np + ensemble.ne, workGroupSize) &&
      neutronContainer.n == ensemble.nn && neutronContainer.particles.Length == ensemble.nn &&
      protonContainer.n == ensemble.np && protonContainer.particles.Length == ensemble.np &&
      electronContainer.n == ensemble.ne && electronContainer.particles.Length == ensemble.ne &&
      neutronContainer.particles != protonContainer.particles &&
      neutronContainer.particles != electronContainer.particles &&
      protonContainer.particles != electronContainer.particles &&
      ensemble.r != neutronContainer.particles && ensemble.r != protonContainer.particles &&
      ensemble.r != electronContainer.particles &&
      ensemble.v != neutronContainer.particles && ensemble.v != protonContainer.particles &&
      ensemble.v != electronContainer.particles &&
      host.Valid() && host.n == ensemble.n && host.workGroupSize == workGroupSize
    }

    /** Every pool shows the positions of its species' slots, in ensemble order. */
    ghost predicate Projected()
      reads ensemble.r, neutronContainer.particles, protonContainer.particles, electronContainer.particles
    {
      ensemble.nn + ensemble.np + ensemble.ne <= ensemble.r.Length &&
      (neutronContainer.particles[..], protonContainer.particles[..], electronContainer.particles[..])
        == Project(ensemble.r[..], ensemble.nn, ensemble.np, ensemble.ne)
    }

    /** Builds the scene for setting "1" (1000 neutrons, 1000 protons and 500
        electrons scattered at rest) or "2" (1000 of each species in two
        counter-streaming clusters), shows it on the pools and uploads the
        whole ensemble to the device. The device name, setting, iteration
        count and work-group size default to "gpu", "1", 10 and 64. The random stream is consumed in source
        order: the neutron, proton and electron pools, then the positions. */
    constructor (draws: Draws, deviceKernel: Integrator, hostIntegrator: Integrator,
                 device: string := "gpu", sceneSetting: string := "1",
                 kernelIterations: int := 10, workGroupSize: nat := 64)
      requires workGroupSize > 0
      requires sceneSetting == "1" || sceneSetting == "2"
      ensures Valid() && Projected()
      ensures fresh(ensemble) && fresh(ensemble.r) && fresh(ensemble.v)
      ensures fresh(ensemble.m) && fresh(ensemble.qe) && fresh(ensemble.qn) && fresh(host)
      ensures fresh(neutronContainer.particles) && fresh(protonContainer.particles)
      ensures fresh(electronContainer.particles)
      ensures this.device == device && this.kernelIterations == kernelIterations
      ensures this.workGroupSize == workGroupSize && this.hostIntegrator == hostIntegrator
      ensures host.kernel == deviceKernel && host.state == ensemble.State()
      ensures neutronContainer.firstDraw == 0
      ensures protonContainer.firstDraw == neutronContainer.nextDraw
      ensures electronContainer.firstDraw == protonContainer.nextDraw
      ensures electronContainer.nextDraw == PositionDrawBase(ensemble.nn, ensemble.np, ensemble.ne)
      ensures sceneSetting == "1" ==>
        ensemble.nn == 1000 && ensemble.np == 1000 && ensemble.ne == 500 &&
        (forall i :: 0 <= i < ensemble.n ==>
          ensemble.r[i] == ScatterPosition(draws, PositionDrawBase(1000, 1000, 500), i) &&
          ensemble.v[i] == Origin)
      ensures sceneSetting == "2" ==>
        ensemble.nn == 1000 && ensemble.np == 1000 && ensemble.ne == 1000 &&
        (forall i :: 0 <= i < ensemble.n ==>
          ensemble.r[i] == CounterStreamPosition(draws, PositionDrawBase(1000, 1000, 1000), 1000, i) &&
          ensemble.v[i] == if i < 1000 then V3(1.0, 0.0, 0.0) else V3(-1.0, 0.0, 0.0))
    {
      this.device := device;
      this.kernelIterations := kernelIterations;
      this.workGroupSize := workGroupSize;
      this.hostIntegrator := hostIntegrator;
      var nn: nat, np: nat, ne: nat := 1000, 1000, if sceneSetting == "1" then 500 else 1000;
      var neutrons := new ParticlesContainer(nn, draws, 0);
      var protons := new ParticlesContainer(np, draws, neutrons.nextDraw);
      var electrons := new ParticlesContainer(ne, draws, protons.nextDraw);
      neutronContainer, protonContainer, electronContainer := neutrons, protons, electrons;
      var e: Ensemble;
      if sceneSetting == "1" {
        e := new Ensemble.Scatter(nn, np, ne, workGroupSize, draws, electrons.nextDraw);
      } else {
        e := new Ensemble.CounterStream(nn, np, ne, workGroupSize, draws, electrons.nextDraw);
      }
      ensemble := e;
      host := new Device.Init(e.n, workGroupSize, e.r, e.v, e.m, e.qe, e.qn, deviceKernel);
      new;
      SetPositions();
    }

    /** Copies slot i to neutron handle i, slot nn + i to proton handle i and
        slot nn + np + i to electron handle i; no padding slot is read. */
    method SetPositions()
      requires Valid()
      modifies neutronContainer.particles, protonContainer.particles, electronContainer.particles
      ensures Valid() && Projected()
    {
      var e := ensemble;
      neutronContainer.ShowSlice(e.r, 0);
      protonContainer.ShowSlice(e.r, e.nn);
      electronContainer.ShowSlice(e.r, e.nn + e.np);
    }

    /** The per-frame update: the device path for the device name "gpu" in any
        case, the host path otherwise. The frame time is not used. */
    method Update(dt: real)
      requires Valid()
      modifies host, ensemble.r, ensemble.v
      modifies neutronContainer.particles, protonContainer.particles, electronContainer.particles
      ensures Valid() && Projected()
      ensures UsesDevice(device) ==>
        host.state == Iterate(DeviceKernels(host.kernel), old(host.state), RangeLength(kernelIterations)) &&
        ensemble.r[..] == host.state.r && ensemble.v[..] == old(ensemble.v[..])
      ensures !UsesDevice(device) ==>
        ensemble.State() == Iterate(HostLoop(hostIntegrator), old(ensemble.State()), RangeLength(kernelIterations)) &&
        host.state == old(host.state)
    {
      if UsesDevice(device) {
        UpdateGpu();
      } else {
        UpdateCpu();
      }
    }

    /** Launches the device kernels kernelIterations times, reads the resident
        positions back over the host positions and shows them. The host
        velocities are left as they were when uploaded. */
    method UpdateGpu()
      requires Valid()
      modifies host, ensemble.r
      modifies neutronContainer.particles, protonContainer.particles, electronContainer.particles
      ensures Valid() && Projected()
      ensures host.state == Iterate(DeviceKernels(host.kernel), old(host.state), RangeLength(kernelIterations))
      ensures ensemble.r[..] == host.state.r
      ensures ensemble.v[..] == old(ensemble.v[..])
    {
      for i := 0 to RangeLength(kernelIterations)
        invariant Valid()
        invariant host.state == Iterate(DeviceKernels(host.kernel), old(host.state), i)
        invariant ensemble.r[..] == old(ensemble.r[..])
      {
        IterateSucc(DeviceKernels(host.kernel), old(host.state), i);
        host.Update();
      }
      host.GetVal(ensemble.r);
      SetPositions();
    }

    /** Runs the host loop kernelIterations times on the ensemble's own arrays
        and shows the new positions; with no iterations the ensemble is
        unchanged. */
    method UpdateCpu()
      requires Valid()
      modifies ensemble.r, ensemble.v
      modifies neutronContainer.particles, protonContainer.particles, electronContainer.particles
      ensures Valid() && Projected()
      ensures ensemble.State() == Iterate(HostLoop(hostIntegrator), old(ensemble.State()), RangeLength(kernelIterations))
      ensures kernelIterations <= 0 ==> ensemble.State() == old(ensemble.State())
    {
      var e := ensemble;
      var n := e.n;
      for i := 0 to RangeLength(kernelIterations)
        invariant Valid()
        invariant e.State() == Iterate(HostLoop(hostIntegrator), old(e.State()), i)
      {
        IterateSucc(HostLoop(hostIntegrator), old(e.State()), i);
        HostUpdate(hostIntegrator, n, e.r, e.v, e.m, e.qe, e.qn);
      }
      SetPositions();
    }
  }
}
