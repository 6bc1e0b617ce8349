/**
 * Values shared by the whole model: 3-vectors, the uniform draws of the
 * random generator, and the three particle species with their constants.
 */
module Particles {

  /** A position or velocity. The source stores each as four single-precision
      floats whose fourth component is always 0 and is never read; the model
      keeps the three meaningful components as exact reals. */
  datatype V3 = V3(x: real, y: real, z: real)

  const Origin: V3 := V3(0.0, 0.0, 0.0)

  /** A value returned by the uniform random generator. */
  type Uniform = u: real | 0.0 <= u < 1.0 witness 0.0

  /** The random generator as a stream: draws(k) is the result of the k-th call. */
  type Draws = nat -> Uniform

  datatype Species = Neutron | Proton | Electron

  const NeutronMass: real := 939.565
  const ProtonMass: real := 938.272
  const ElectronMass: real := 0.511

  /** Rest mass of a species; every species has a positive mass, which is what
      lets a zero mass mark a padding slot. */
  function Mass(s: Species): (m: real)
    ensures m > 0.0
  {
    match s
    case Neutron => NeutronMass
    case Proton => ProtonMass
    case Electron => ElectronMass
  }

  /** Signed electric charge in units of the elementary charge. */
  function ElectricCharge(s: Species): int
  {
    match s
    case Neutron => 0
    case Proton => 1
    case Electron => -1
  }

  /** Baryon flag: 1 for nucleons, 0 for electrons. */
  function BaryonCharge(s: Species): int
  {
    match s
    case Neutron => 1
    case Proton => 1
    case Electron => 0
  }
}
