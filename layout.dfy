/**
 * The index layout of the particle ensemble that the compute kernels rely on:
 * the padded slot count, the species partition of the mass and charge arrays,
 * and the projection of the position array onto the three species pools.
 */
module Layout {
  import opened Particles
  import opened Options

  /** Number of array slots for raw particles, as the scene builders compute
      it: (raw - 1) / wg * wg + wg with floor division (for a positive divisor
      floor division and Dafny's `/` agree, also for raw == 0). It is the least
      multiple of wg that holds raw particles: aligned counts get no spare slot. */
  function PaddedCount(raw: nat, wg: nat): (n: nat)
    requires wg > 0
    ensures n % wg == 0
    ensures raw <= n
    ensures raw >= 1 ==> n < raw + wg
    ensures raw == 0 ==> n == 0
    ensures raw % wg == 0 ==> n == raw
  {
    var q, rem := (raw - 1) / wg, (raw - 1) % wg;
    assert raw - 1 == q * wg + rem && 0 <= rem < wg;
    assert q * wg + wg == (q + 1) * wg;
    MultipleMod(q + 1, wg);
    AlignedRemainder(raw, wg);
    q * wg + wg
  }

  /** The sign of a multiple of wg follows the sign of its factor. */
  lemma MulSign(a: int, wg: int)
    requires wg > 0
    ensures a >= 1 ==> a * wg >= wg
    ensures a <= -1 ==> a * wg <= -wg
  {
  }

  /** Euclidean division by wg has exactly one quotient and remainder. */
  lemma DivModUnique(x: int, wg: int, d: int, r: int)
    requires wg > 0 && x == d * wg + r && 0 <= r < wg
    ensures x / wg == d && x % wg == r
  {
    var d', r' := x / wg, x % wg;
    assert (d - d') * wg == r' - r;
    MulSign(d - d', wg);
  }

  /** A multiple of wg leaves no remainder. */
  lemma MultipleMod(k: int, wg: int)
    requires wg > 0
    ensures (k * wg) % wg == 0
  {
    DivModUnique(k * wg, wg, k, 0);
  }

  /** When raw is aligned, raw - 1 leaves the largest remainder. */
  lemma AlignedRemainder(raw: nat, wg: nat)
    requires wg > 0
    ensures raw % wg == 0 ==> (raw - 1) % wg == wg - 1
  {
    if raw % wg == 0 {
      var t := raw / wg;
      assert raw == t * wg;
      assert raw - 1 == (t - 1) * wg + (wg - 1);
      DivModUnique(raw - 1, wg, t - 1, wg - 1);
    }
  }

  /** No multiple of wg that holds raw particles is smaller than the padded count. */
  lemma PaddedCountIsLeast(raw: nat, wg: nat, m: nat)
    requires wg > 0 && m % wg == 0 && raw <= m
    ensures PaddedCount(raw, wg) <= m
  {
    var n := PaddedCount(raw, wg);
    if m < n {
      var a, b := n / wg, m / wg;
      assert n == a * wg && m == b * wg;
      assert (a - b) * wg == n - m;
      MulSign(a - b, wg);
    }
  }

  /** Species held by slot i: nn neutrons, then np protons, then ne electrons;
      None for a padding slot. */
  function SpeciesAt(nn: nat, np: nat, ne: nat, i: nat): Option<Species>
  {
    if i < nn then Some(Neutron)
    else if i < nn + np then Some(Proton)
    else if i < nn + np + ne then Some(Electron)
    else None
  }

  /** Mass of slot i: its species' mass, 0 for padding. */
  function MassAt(nn: nat, np: nat, ne: nat, i: nat): real
  {
    match SpeciesAt(nn, np, ne, i)
    case Some(s) => Mass(s)
    case None => 0.0
  }

  /** Electric charge of slot i: its species' charge, 0 for padding. */
  function ElectricChargeAt(nn: nat, np: nat, ne: nat, i: nat): int
  {
    match SpeciesAt(nn, np, ne, i)
    case Some(s) => ElectricCharge(s)
    case None => 0
  }

  /** Baryon flag of slot i: its species' flag, 0 for padding. */
  function BaryonChargeAt(nn: nat, np: nat, ne: nat, i: nat): int
  {
    match SpeciesAt(nn, np, ne, i)
    case Some(s) => BaryonCharge(s)
    case None => 0
  }

  /** The species partition of the mass array m, the electric charge array qe
      and the baryon flag array qn: every slot carries the values of the
      species SpeciesAt gives it, and padding slots carry zeros. */
  ghost predicate Partitioned(nn: nat, np: nat, ne: nat, m: seq<real>, qe: seq<int>, qn: seq<int>)
  {
    |qe| == |m| && |qn| == |m| && nn + np + ne <= |m| &&
    forall i :: 0 <= i < |m| ==>
      m[i] == MassAt(nn, np, ne, i) && qe[i] == ElectricChargeAt(nn, np, ne, i) &&
      qn[i] == BaryonChargeAt(nn, np, ne, i)
  }

  /** What the partition means range by range: neutrons carry charge 0 and
      baryon flag 1, protons charge +1 and flag 1, electrons charge -1 and
      flag 0, and padding slots mass, charge and flag 0. */
  lemma PartitionedRanges(nn: nat, np: nat, ne: nat, m: seq<real>, qe: seq<int>, qn: seq<int>, i: nat)
    requires Partitioned(nn, np, ne, m, qe, qn) && i < |m|
    ensures i < nn ==> m[i] == NeutronMass && qe[i] == 0 && qn[i] == 1
    ensures nn <= i < nn + np ==> m[i] == ProtonMass && qe[i] == 1 && qn[i] == 1
    ensures nn + np <= i < nn + np + ne ==> m[i] == ElectronMass && qe[i] == -1 && qn[i] == 0
    ensures nn + np + ne <= i ==> m[i] == 0.0 && qe[i] == 0 && qn[i] == 0
  {
  }

  /** In a partitioned ensemble a slot holds a particle exactly when its mass
      is positive: the guard the host-side kernel uses to skip padding. */
  lemma PositiveMassIffParticle(nn: nat, np: nat, ne: nat, m: seq<real>, qe: seq<int>, qn: seq<int>, i: nat)
    requires Partitioned(nn, np, ne, m, qe, qn) && i < |m|
    ensures m[i] > 0.0 <==> i < nn + np + ne
  {
    if i < nn + np + ne {
      var s := SpeciesAt(nn, np, ne, i).value;
      assert m[i] == Mass(s);
    }
  }

  /** The positions handed to the three visual pools: handle i of the neutron
      pool shows slot i, of the proton pool slot nn + i, of the electron pool
      slot nn + np + i. */
  function Project(r: seq<V3>, nn: nat, np: nat, ne: nat): (p: (seq<V3>, seq<V3>, seq<V3>))
    requires nn + np + ne <= |r|
    ensures |p.0| == nn && |p.1| == np && |p.2| == ne
    ensures forall i :: 0 <= i < nn ==> p.0[i] == r[i]
    ensures forall i :: 0 <= i < np ==> p.1[i] == r[nn + i]
    ensures forall i :: 0 <= i < ne ==> p.2[i] == r[nn + np + i]
  {
    (r[..nn], r[nn..nn + np], r[nn + np..nn + np + ne])
  }

  /** The three pools together show the particle slots in ensemble order, with
      nothing reordered across species boundaries and no padding slot. */
  lemma ProjectInOrder(r: seq<V3>, nn: nat, np: nat, ne: nat)
    requires nn + np + ne <= |r|
    ensures Project(r, nn, np, ne).0 + Project(r, nn, np, ne).1 + Project(r, nn, np, ne).2
            == r[..nn + np + ne]
  {
    var p := Project(r, nn, np, ne);
    var s := p.0 + p.1 + p.2;
    forall i | 0 <= i < nn + np + ne
      ensures s[i] == r[i]
    {
      if i < nn {
      } else if i < nn + np {
        assert s[i] == p.1[i - nn];
      } else {
        assert s[i] == p.2[i - nn - np];
      }
    }
  }

  /** The projection never reads a padding slot: two position arrays that agree
      on the particle slots project to the same pools. */
  lemma ProjectIgnoresPadding(r: seq<V3>, r': seq<V3>, nn: nat, np: nat, ne: nat)
    requires nn + np + ne <= |r| && nn + np + ne <= |r'|
    requires r[..nn + np + ne] == r'[..nn + np + ne]
    ensures Project(r, nn, np, ne) == Project(r', nn, np, ne)
  {
    var raw := nn + np + ne;
    assert r[..nn] == r[..raw][..nn] == r'[..raw][..nn] == r'[..nn];
    assert r[nn..nn + np] == r[..raw][nn..nn + np] == r'[..raw][nn..nn + np] == r'[nn..nn + np];
    assert r[nn + np..raw] == r[..raw][nn + np..] == r'[..raw][nn + np..] == r'[nn + np..raw];
  }
}
