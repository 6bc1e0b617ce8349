/**
 * The compute backend behind the per-frame update, with its numerics left
 * abstract. Two variants share one capability, one integration step over the
 * ensemble: the host loop, which the caller hands all five arrays on every
 * step and which updates them in place, and the device kernels, which keep
 * their own copy of the state between steps and are read back on demand.
 */
module Backends {
  import opened Particles
  import opened Layout

  /** The five parallel arrays of an ensemble, as values. */
  datatype HostState = HostState(r: seq<V3>, v: seq<V3>, m: seq<real>, qe: seq<int>, qn: seq<int>)
  {
    /** Every array has one entry per slot. */
    predicate Valid()
    {
      |v| == |r| && |m| == |r| && |qe| == |r| && |qn| == |r|
    }

    function Size(): nat
    {
      |r|
    }
  }

  /** The floating-point numerics of one step for one particle, left abstract:
      from the arrays and a slot j, the new position and velocity of slot j. */
  type Integrator = (HostState, nat) -> (V3, V3)

  /** The two backend variants, each carrying its abstract numerics. */
  datatype Backend =
    | HostLoop(integrate: Integrator)
    | DeviceKernels(kernel: Integrator)

  /** The body of the host loop for slot j: a slot with positive mass gets the
      integrator's new position and velocity, any other slot is skipped. */
  function Visit(f: Integrator, s: HostState, j: nat): (t: HostState)
    requires s.Valid() && j < s.Size()
    ensures t.Valid() && t.Size() == s.Size()
    ensures t.m == s.m && t.qe == s.qe && t.qn == s.qn
    ensures forall i :: 0 <= i < s.Size() && i != j ==> t.r[i] == s.r[i] && t.v[i] == s.v[i]
    ensures s.m[j] > 0.0 ==> (t.r[j], t.v[j]) == f(s, j)
    ensures s.m[j] <= 0.0 ==> t == s
  {
    if s.m[j] > 0.0 then
      var rv := f(s, j);
      s.(r := s.r[j := rv.0], v := s.v[j := rv.1])
    else
      s
  }

  /** The host loop after its first j iterations: slots 0, 1, ..., j - 1 are
      visited in increasing order, each seeing the updates of the slots before
      it. Slots from j on and slots without positive mass keep their position
      and velocity. */
  function Sweep(f: Integrator, s: HostState, j: nat): (t: HostState)
    requires s.Valid() && j <= s.Size()
    ensures t.Valid() && t.Size() == s.Size()
    ensures t.m == s.m && t.qe == s.qe && t.qn == s.qn
    ensures forall i :: 0 <= i < s.Size() && (j <= i || s.m[i] <= 0.0) ==>
              t.r[i] == s.r[i] && t.v[i] == s.v[i]
  {
    if j == 0 then s else Visit(f, Sweep(f, s, j - 1), j - 1)
  }

  /** The device step: every slot's new position and velocity are computed from
      the state before the step. */
  function DeviceStep(g: Integrator, s: HostState): (t: HostState)
    requires s.Valid()
    ensures t.Valid() && t.Size() == s.Size()
    ensures t.m == s.m && t.qe == s.qe && t.qn == s.qn
    ensures forall j :: 0 <= j < s.Size() ==> (t.r[j], t.v[j]) == g(s, j)
  {
    s.(r := seq(s.Size(), j requires 0 <= j < s.Size() => g(s, j).0),
       v := seq(s.Size(), j requires 0 <= j < s.Size() => g(s, j).1))
  }

  /** One integration step of either backend. Neither writes the mass or
      charge arrays, and the host loop never moves a slot without positive mass. */
  function Step(b: Backend, s: HostState): (t: HostState)
    requires s.Valid()
    ensures t.Valid() && t.Size() == s.Size()
    ensures t.m == s.m && t.qe == s.qe && t.qn == s.qn
    ensures b.HostLoop? ==> forall i :: 0 <= i < s.Size() && s.m[i] <= 0.0 ==>
              t.r[i] == s.r[i] && t.v[i] == s.v[i]
  {
    match b
    case HostLoop(f) => Sweep(f, s, s.Size())
    case DeviceKernels(g) => DeviceStep(g, s)
  }

  /** k applications of a step function: a loop of k iterations, which
      leaves the state alone when k is 0. */
  function Repeat(step: HostState -> HostState, s: HostState, k: nat): (t: HostState)
    ensures k == 0 ==> t == s
  {
    if k == 0 then s else step(Repeat(step, s, k - 1))
  }

  /** Batching is not a correctness parameter: a steps followed by c steps are
      the same as a + c steps in one batch. */
  lemma {:induction false} RepeatAdditive(step: HostState -> HostState, s: HostState, a: nat, c: nat)
    ensures Repeat(step, Repeat(step, s, a), c) == Repeat(step, s, a + c)
  {
    if c > 0 {
      RepeatAdditive(step, s, a, c - 1);
    }
  }

  /** The step of backend b as a total function on array states. */
  function StepOf(b: Backend): HostState -> HostState
  {
    (s: HostState) => if s.Valid() then Step(b, s) else s
  }

  /** kernel_iterations steps of one backend: its step applied k times. */
  function Iterate(b: Backend, s: HostState, k: nat): (t: HostState)
    requires s.Valid()
    ensures t.Valid() && t.Size() == s.Size()
    ensures t.m == s.m && t.qe == s.qe && t.qn == s.qn
  {
    IterateKeepsLayout(b, s, k);
    Repeat(StepOf(b), s, k)
  }

  /** No step of either backend resizes an array or writes the layout arrays. */
  lemma {:induction false} IterateKeepsLayout(b: Backend, s: HostState, k: nat)
    requires s.Valid()
    ensures Repeat(StepOf(b), s, k).Valid() && Repeat(StepOf(b), s, k).Size() == s.Size()
    ensures Repeat(StepOf(b), s, k).m == s.m && Repeat(StepOf(b), s, k).qe == s.qe
    ensures Repeat(StepOf(b), s, k).qn == s.qn
  {
    if k > 0 {
      IterateKeepsLayout(b, s, k - 1);
    }
  }

  /** The step after k steps is step k + 1. */
  lemma IterateSucc(b: Backend, s: HostState, k: nat)
    requires s.Valid()
    ensures Iterate(b, s, k + 1) == Step(b, Iterate(b, s, k))
  {
  }

  /** Running a steps and then c steps of one backend is running a + c steps. */
  lemma IterateAdditive(b: Backend, s: HostState, a: nat, c: nat)
    requires s.Valid()
    ensures Iterate(b, Iterate(b, s, a), c) == Iterate(b, s, a + c)
  {
    RepeatAdditive(StepOf(b), s, a, c);
  }

  /** On the host loop a slot without positive mass keeps its position and
      velocity through any number of steps. */
  lemma {:induction false} HostLoopKeepsMassless(f: Integrator, s: HostState, k: nat, j: nat)
    requires s.Valid() && j < s.Size() && s.m[j] <= 0.0
    ensures Iterate(HostLoop(f), s, k).r[j] == s.r[j] && Iterate(HostLoop(f), s, k).v[j] == s.v[j]
  {
    if k > 0 {
      HostLoopKeepsMassless(f, s, k - 1, j);
      IterateSucc(HostLoop(f), s, k - 1);
    }
  }

  /** On the host loop the padding slots of a partitioned ensemble keep their
      position and velocity through any number of steps. */
  lemma HostLoopKeepsPadding(f: Integrator, s: HostState, k: nat, nn: nat, np: nat, ne: nat)
    requires s.Valid() && Partitioned(nn, np, ne, s.m, s.qe, s.qn)
    ensures forall j :: nn + np + ne <= j < s.Size() ==>
      Iterate(HostLoop(f), s, k).r[j] == s.r[j] && Iterate(HostLoop(f), s, k).v[j] == s.v[j]
  {
    forall j | nn + np + ne <= j < s.Size()
      ensures Iterate(HostLoop(f), s, k).r[j] == s.r[j] && Iterate(HostLoop(f), s, k).v[j] == s.v[j]
    {
      HostLoopKeepsMassless(f, s, k, j);
    }
  }

  /** The five arrays of an ensemble as a value. */
  function Snapshot(r: array<V3>, v: array<V3>, m: array<real>, qe: array<int>, qn: array<int>): HostState
    reads r, v, m, qe, qn
  {
    HostState(r[..], v[..], m[..], qe[..], qn[..])
  }

  /** One host-loop step over n slots, writing positions and velocities in
      place, in slot order, skipping every slot whose mass is not positive. */
  method HostUpdate(f: Integrator, n: nat, r: array<V3>, v: array<V3>, m: array<real>, qe: array<int>, qn: array<int>)
    requires r.Length == n && v.Length == n && m.Length == n && qe.Length == n && qn.Length == n
    requires r != v
    modifies r, v
    ensures Snapshot(r, v, m, qe, qn) == Step(HostLoop(f), old(Snapshot(r, v, m, qe, qn)))
  {
    ghost var start := Snapshot(r, v, m, qe, qn);
    for j := 0 to n
      invariant Snapshot(r, v, m, qe, qn) == Sweep(f, start, j)
    {
      ghost var before := Snapshot(r, v, m, qe, qn);
      if m[j] > 0.0 {
        var rv := f(Snapshot(r, v, m, qe, qn), j);
        r[j] := rv.0;
        v[j] := rv.1;
      }
      assert Snapshot(r, v, m, qe, qn) == Visit(f, before, j);
    }
  }

  /** The accelerator holding the resident state: the buffers uploaded once at
      initialisation, advanced by the device kernels, and read back on demand. */
  class Device {
    const n: nat
    const workGroupSize: nat
    const kernel: Integrator
    var state: HostState

    ghost predicate Valid()
      reads this
    {
      workGroupSize > 0 && n % workGroupSize == 0 &&
      state.Valid() && state.Size() == n
    }

    /** Uploads all five arrays of n slots; n is a whole number of work groups. */
    constructor Init(n: nat, workGroupSize: nat, r: array<V3>, v: array<V3>, m: array<real>,
                     qe: array<int>, qn: array<int>, kernel: Integrator)
      requires workGroupSize > 0 && n % workGroupSize == 0
      requires r.Length == n && v.Length == n && m.Length == n && qe.Length == n && qn.Length == n
      ensures Valid()
      ensures this.n == n && this.workGroupSize == workGroupSize && this.kernel == kernel
      ensures state == Snapshot(r, v, m, qe, qn)
    {
      this.n := n;
      this.workGroupSize := workGroupSize;
      this.kernel := kernel;
      state := Snapshot(r, v, m, qe, qn);
    }

    /** One gpu_update call: the force kernel and then the position kernel,
        that is, one device step on the resident state. */
    method Update()
      requires Valid()
      modifies this
      ensures Valid()
      ensures state == Step(DeviceKernels(kernel), old(state))
    {
      state := Step(DeviceKernels(kernel), state);
    }

    /** Reads the resident positions back into the host's position array. */
    method GetVal(r: array<V3>)
      requires Valid() && r.Length == n
      modifies r
      ensures r[..] == state.r
    {
      forall i | 0 <= i < n {
        r[i] := state.r[i];
      }
    }
  }
}
