/**
 * The particle ensemble and the two scene settings that populate it: padded,
 * species-partitioned mass and charge arrays, and the initial positions and
 * velocities of either setting.
 */
module Ensembles {
  import opened Particles
  import opened Layout
  import Backends

  /** (u - 0.5) * extent: a uniform draw spread over an interval of the given
      extent centred on 0. */
  function Spread(u: Uniform, extent: real): (c: real)
    requires extent > 0.0
    ensures -extent / 2.0 <= c < extent / 2.0
  {
    (u - 0.5) * extent
  }

  /** Initial position of slot i in setting 1, from the three draws that start
      at base + 3 * i: scattered over a 100 x 100 x 10 box at the origin. */
  function ScatterPosition(draws: Draws, base: nat, i: nat): (p: V3)
    ensures -50.0 <= p.x < 50.0 && -50.0 <= p.y < 50.0 && -5.0 <= p.z < 5.0
  {
    V3(Spread(draws(base + 3 * i), 100.0),
       Spread(draws(base + 3 * i + 1), 100.0),
       Spread(draws(base + 3 * i + 2), 10.0))
  }

  /** Initial position of slot i in setting 2, from the three draws that start
      at base + 3 * i: a 40 x 20 x 20 box centred at x = -60 for the first nn
      slots and at x = +60 for every later slot, padding included. */
  function CounterStreamPosition(draws: Draws, base: nat, nn: nat, i: nat): (p: V3)
    ensures i < nn ==> -80.0 <= p.x < -40.0
    ensures i >= nn ==> 40.0 <= p.x < 80.0
    ensures -10.0 <= p.y < 10.0 && -10.0 <= p.z < 10.0
  {
    var offset := if i < nn then -60.0 else 60.0;
    V3(Spread(draws(base + 3 * i), 40.0) + offset,
       Spread(draws(base + 3 * i + 1), 20.0),
       Spread(draws(base + 3 * i + 2), 20.0))
  }

  /** The zero-filled mass, electric charge and baryon flag arrays of n slots,
      written range by range for nn neutrons, np protons and ne electrons. A
      slot has positive mass exactly when it holds a particle. */
  method SpeciesArrays(nn: nat, np: nat, ne: nat, n: nat) returns (m: array<real>, qe: array<int>, qn: array<int>)
    requires nn + np + ne <= n
    ensures fresh(m) && fresh(qe) && fresh(qn)
    ensures m.Length == n && qe.Length == n && qn.Length == n
    ensures Partitioned(nn, np, ne, m[..], qe[..], qn[..])
    ensures forall i :: 0 <= i < n ==> (m[i] > 0.0 <==> i < nn + np + ne)
  {
    m := new real[n](_ => 0.0);
    qe := new int[n](_ => 0);
    qn := new int[n](_ => 0);
    for i := 0 to nn
      invariant forall k :: 0 <= k < n ==>
        m[k] == (if k < i then MassAt(nn, np, ne, k) else 0.0) &&
        qe[k] == 0 && qn[k] == (if k < i then 1 else 0)
    {
      m[i] := NeutronMass;
      qn[i] := 1;
    }
    for i := nn to nn + np
      invariant forall k :: 0 <= k < n ==>
        m[k] == (if k < i then MassAt(nn, np, ne, k) else 0.0) &&
        qe[k] == (if k < i then ElectricChargeAt(nn, np, ne, k) else 0) && qn[k] == (if k < i then 1 else 0)
    {
      m[i] := ProtonMass;
      qe[i] := 1;
      qn[i] := 1;
    }
    for i := nn + np to nn + np + ne
      invariant forall k :: 0 <= k < n ==>
        m[k] == (if k < i then MassAt(nn, np, ne, k) else 0.0) &&
        qe[k] == (if k < i then ElectricChargeAt(nn, np, ne, k) else 0) &&
        qn[k] == BaryonChargeAt(nn, np, ne, k)
    {
      m[i] := ElectronMass;
      qe[i] := -1;
    }
    forall i | 0 <= i < n
      ensures m[i] > 0.0 <==> i < nn + np + ne
    {
      PositiveMassIffParticle(nn, np, ne, m[..], qe[..], qn[..], i);
    }
  }

  /** Setting 1 positions: slot i of n, padding included, from the three draws
      starting at base + 3 * i. */
  method ScatterPositions(n: nat, draws: Draws, base: nat) returns (r: array<V3>)
    ensures fresh(r) && r.Length == n
    ensures forall i :: 0 <= i < n ==> r[i] == ScatterPosition(draws, base, i)
  {
    r := new V3[n](_ => Origin);
    for i := 0 to n
      invariant forall k :: 0 <= k < i ==> r[k] == ScatterPosition(draws, base, k)
    {
      r[i] := ScatterPosition(draws, base, i);
    }
  }

  /** Setting 2 positions: the neutron cluster over the first nn slots, then the
      second cluster over every later slot, padding included. */
  method CounterStreamPositions(nn: nat, n: nat, draws: Draws, base: nat) returns (r: array<V3>)
    requires nn <= n
    ensures fresh(r) && r.Length == n
    ensures forall i :: 0 <= i < n ==> r[i] == CounterStreamPosition(draws, base, nn, i)
  {
    r := new V3[n](_ => Origin);
    for i := 0 to nn
      invariant forall k :: 0 <= k < i ==> r[k] == CounterStreamPosition(draws, base, nn, k)
    {
      r[i] := CounterStreamPosition(draws, base, nn, i);
    }
    for i := nn to n
      invariant forall k :: 0 <= k < i ==> r[k] == CounterStreamPosition(draws, base, nn, k)
    {
      r[i] := CounterStreamPosition(draws, base, nn, i);
    }
  }

  /** Setting 2 velocities: +x for the first nn slots, -x for every later
      slot, padding included. */
  method CounterStreamVelocities(nn: nat, n: nat) returns (v: array<V3>)
    requires nn <= n
    ensures fresh(v) && v.Length == n
    ensures forall i :: 0 <= i < n ==> v[i] == if i < nn then V3(1.0, 0.0, 0.0) else V3(-1.0, 0.0, 0.0)
  {
    v := new V3[n](_ => Origin);
    for i := 0 to nn
      invariant forall k :: 0 <= k < i ==> v[k] == V3(1.0, 0.0, 0.0)
    {
      v[i] := V3(1.0, 0.0, 0.0);
    }
    for i := nn to n
      invariant forall k :: 0 <= k < nn ==> v[k] == V3(1.0, 0.0, 0.0)
      invariant forall k :: nn <= k < i ==> v[k] == V3(-1.0, 0.0, 0.0)
    {
      v[i] := V3(-1.0, 0.0, 0.0);
    }
  }

  /** The particle ensemble: nn neutrons, np protons and ne electrons in n
      slots, with five parallel arrays that are never resized. */
  class Ensemble {
    const nn: nat
    const np: nat
    const ne: nat
    const n: nat
    const r: array<V3>
    const v: array<V3>
    const m: array<real>
    const qe: array<int>
    const qn: array<int>

    /** Every array has n slots, positions and velocities are separate arrays,
        and the mass and charge arrays carry the species partition. */
    ghost predicate Valid()
      reads m, qe, qn
    {
      r.Length == n && v.Length == n && m.Length == n && qe.Length == n && qn.Length == n &&
      r != v &&
      Partitioned(nn, np, ne, m[..], qe[..], qn[..])
    }

    /** The five arrays as a value. */
    function State(): Backends.HostState
      reads r, v, m, qe, qn
    {
      Backends.Snapshot(r, v, m, qe, qn)
    }

    /** Setting 1: every slot, padding included, scattered over a
        100 x 100 x 10 box from the draws starting at base, at rest. */
    constructor Scatter(nn: nat, np: nat, ne: nat, workGroupSize: nat, draws: Draws, base: nat)
      requires workGroupSize > 0
      ensures Valid() && fresh(r) && fresh(v) && fresh(m) && fresh(qe) && fresh(qn)
      ensures this.nn == nn && this.np == np && this.ne == ne
      ensures n == PaddedCount(nn + np + ne, workGroupSize)
      ensures forall i :: 0 <= i < n ==> r[i] == ScatterPosition(draws, base, i)
      ensures forall i :: 0 <= i < n ==> v[i] == Origin
    {
      var count := PaddedCount(nn + np + ne, workGroupSize);
      var masses, charges, baryons := SpeciesArrays(nn, np, ne, count);
      var positions := ScatterPositions(count, draws, base);
      var velocities := new V3[count](_ => Origin);
      this.nn, this.np, this.ne, n := nn, np, ne, count;
      r, v, m, qe, qn := positions, velocities, masses, charges, baryons;
    }

    /** Setting 2: two clusters streaming towards each other. The first nn
        slots sit in a box at x = -60 moving along +x; every later slot,
        padding included, sits in a box at x = +60 moving along -x. */
    constructor CounterStream(nn: nat, np: nat, ne: nat, workGroupSize: nat, draws: Draws, base: nat)
      requires workGroupSize > 0
      ensures Valid() && fresh(r) && fresh(v) && fresh(m) && fresh(qe) && fresh(qn)
      ensures this.nn == nn && this.np == np && this.ne == ne
      ensures n == PaddedCount(nn + np + ne, workGroupSize)
      ensures forall i :: 0 <= i < n ==> r[i] == CounterStreamPosition(draws, base, nn, i)
      ensures forall i :: 0 <= i < n ==> v[i] == if i < nn then V3(1.0, 0.0, 0.0) else V3(-1.0, 0.0, 0.0)
    {
      var count := PaddedCount(nn + np + ne, workGroupSize);
      var masses, charges, baryons := SpeciesArrays(nn, np, ne, count);
      var positions := CounterStreamPositions(nn, count, draws, base);
      var velocities := CounterStreamVelocities(nn, count);
      this.nn, this.np, this.ne, n := nn, np, ne, count;
      r, v, m, qe, qn := positions, velocities, masses, charges, baryons;
    }
  }
}
