/** The five coordinate classes as one value type, and their conversion
    table: each class's `toDecart2d` ... `toSpherical` methods, answering
    a pair (retry flag, coordinates). */
module Coordinates {
  import opened Families

  /** A point in one of the five representations. Fields are the Kotlin
      `Double`s, modelled as reals; angles are in radians. */
  datatype Coord =
    | Decart2d(x: real, y: real)
    | Polar(rho: real, phi: real)
    | Decart3d(x: real, y: real, z: real)
    | Cylindrical(rho: real, phi: real, z: real)
    | Spherical(r: real, theta: real, phi: real)

  /** The `kotlin.math` functions and the floating-point division the
      conversion formulas use. They are left uninterpreted: the model says
      nothing about their numeric values. `quot` is total, as `Double`
      division is (a zero divisor yields an infinity or NaN, not an error). */
  datatype Math = Math(
    sqrt: real -> real,
    atan: real -> real,
    atan2: (real, real) -> real,
    sin: real -> real,
    cos: real -> real,
    quot: (real, real) -> real)

  /** The `Pair<Boolean, Coordinates>` every conversion returns: `retry`
      is true when the target is not reachable from here in one step, and
      then `value` is the receiver itself. */
  datatype Conversion = Conversion(retry: bool, value: Coord)

  function FamilyOf(c: Coord): Family {
    match c
    case Decart2d(_, _) => Decart2dFamily
    case Polar(_, _) => PolarFamily
    case Decart3d(_, _, _) => Decart3dFamily
    case Cylindrical(_, _, _) => CylindricalFamily
    case Spherical(_, _, _) => SphericalFamily
  }

  /** The stored fields, in the order of the family's field symbols. */
  function Values(c: Coord): (vs: seq<real>)
    ensures |vs| == |Fields(FamilyOf(c))|
  {
    match c
    case Decart2d(x, y) => [x, y]
    case Polar(rho, phi) => [rho, phi]
    case Decart3d(x, y, z) => [x, y, z]
    case Cylindrical(rho, phi, z) => [rho, phi, z]
    case Spherical(r, theta, phi) => [r, theta, phi]
  }

  /** A point is determined by its family and its stored fields. */
  lemma ValuesDetermineCoord(a: Coord, b: Coord)
    requires FamilyOf(a) == FamilyOf(b)
    ensures Values(a) == Values(b) <==> a == b
  {
  }

  // ---------------------------------------------------------------------
  // The conversion table, one function per class. `target` selects which
  // of the five `to*` methods is called.
  // ---------------------------------------------------------------------

  /** `Decart2d.to*`: itself for Decart2d, polar by formula, and the retry
      signal with itself for every 3-D family. */
  function Decart2dConvert(x: real, y: real, target: Family, m: Math): (r: Conversion)
    ensures r.retry <==> !Planar(target)
    ensures r.retry ==> r.value == Decart2d(x, y)
    ensures !r.retry ==> FamilyOf(r.value) == target
    ensures target == Decart2dFamily ==> r.value == Decart2d(x, y)
  {
    match target
    case Decart2dFamily => Conversion(false, Decart2d(x, y))
    case PolarFamily =>
      var rho := m.sqrt(x * x + y * y);
      var phi := m.atan2(y, x);
      Conversion(false, Polar(rho, phi))
    case Decart3dFamily => Conversion(true, Decart2d(x, y))
    case CylindricalFamily => Conversion(true, Decart2d(x, y))
    case SphericalFamily => Conversion(true, Decart2d(x, y))
  }

  /** `PolarCoordinates.to*`: Decart2d by formula, itself for polar, and
      the retry signal with itself for every 3-D family. */
  function PolarConvert(rho: real, phi: real, target: Family, m: Math): (r: Conversion)
    ensures r.retry <==> !Planar(target)
    ensures r.retry ==> r.value == Polar(rho, phi)
    ensures !r.retry ==> FamilyOf(r.value) == target
    ensures target == PolarFamily ==> r.value == Polar(rho, phi)
  {
    match target
    case Decart2dFamily =>
      var x := rho * m.cos(phi);
      var y := rho * m.sin(phi);
      Conversion(false, Decart2d(x, y))
    case PolarFamily => Conversion(false, Polar(rho, phi))
    case Decart3dFamily => Conversion(true, Polar(rho, phi))
    case CylindricalFamily => Conversion(true, Polar(rho, phi))
    case SphericalFamily => Conversion(true, Polar(rho, phi))
  }

  /** `Decart3d.to*`: the retry signal with itself for both 2-D families,
      itself for Decart3d, cylindrical and spherical by formula; the
      cylindrical result carries `z` through. The polar angle of the
      spherical result is `atan(sqrt(x*x + y*y) / z)`, as in the source. */
  function Decart3dConvert(x: real, y: real, z: real, target: Family, m: Math): (r: Conversion)
    ensures r.retry <==> Planar(target)
    ensures r.retry ==> r.value == Decart3d(x, y, z)
    ensures !r.retry ==> FamilyOf(r.value) == target
    ensures target == Decart3dFamily ==> r.value == Decart3d(x, y, z)
    ensures target == CylindricalFamily ==> r.value.z == z
  {
    match target
    case Decart2dFamily => Conversion(true, Decart3d(x, y, z))
    case PolarFamily => Conversion(true, Decart3d(x, y, z))
    case Decart3dFamily => Conversion(false, Decart3d(x, y, z))
    case CylindricalFamily =>
      var rho := m.sqrt(x * x + y * y);
      var phi := m.atan2(y, x);
      Conversion(false, Cylindrical(rho, phi, z))
    case SphericalFamily =>
      var r := m.sqrt(x * x + y * y + z * z);
      var theta := m.atan(m.quot(m.sqrt(x * x + y * y), z));
      var phi := m.atan2(y, x);
      Conversion(false, Spherical(r, theta, phi))
  }

  /** `CylindricalCoordinates.to*`: the retry signal with itself for both
      2-D families, Decart3d and spherical by formula, itself for
      cylindrical; `z` passes through to Decart3d and `phi` to spherical. */
  function CylindricalConvert(rho: real, phi: real, z: real, target: Family, m: Math): (r: Conversion)
    ensures r.retry <==> Planar(target)
    ensures r.retry ==> r.value == Cylindrical(rho, phi, z)
    ensures !r.retry ==> FamilyOf(r.value) == target
    ensures target == CylindricalFamily ==> r.value == Cylindrical(rho, phi, z)
    ensures target == Decart3dFamily ==> r.value.z == z
    ensures target == SphericalFamily ==> r.value.phi == phi
  {
    match target
    case Decart2dFamily => Conversion(true, Cylindrical(rho, phi, z))
    case PolarFamily => Conversion(true, Cylindrical(rho, phi, z))
    case Decart3dFamily =>
      var x := rho * m.cos(phi);
      var y := rho * m.sin(phi);
      Conversion(false, Decart3d(x, y, z))
    case CylindricalFamily => Conversion(false, Cylindrical(rho, phi, z))
    case SphericalFamily =>
      var r := m.sqrt(rho * rho + z * z);
      var theta := m.atan2(rho, z);
      Conversion(false, Spherical(r, theta, phi))
  }

  /** `SphericalCoordinates.to*`: the retry signal with itself for both
      2-D families, Decart3d and cylindrical by formula, itself for
      spherical; `phi` passes through to cylindrical. */
  function SphericalConvert(r: real, theta: real, phi: real, target: Family, m: Math): (res: Conversion)
    ensures res.retry <==> Planar(target)
    ensures res.retry ==> res.value == Spherical(r, theta, phi)
    ensures !res.retry ==> FamilyOf(res.value) == target
    ensures target == SphericalFamily ==> res.value == Spherical(r, theta, phi)
    ensures target == CylindricalFamily ==> res.value.phi == phi
  {
    match target
    case Decart2dFamily => Conversion(true, Spherical(r, theta, phi))
    case PolarFamily => Conversion(true, Spherical(r, theta, phi))
    case Decart3dFamily =>
      var x := r * m.sin(theta) * m.cos(phi);
      var y := r * m.sin(theta) * m.sin(phi);
      var z := r * m.cos(theta);
      Conversion(false, Decart3d(x, y, z))
    case CylindricalFamily =>
      var rho := r * m.sin(theta);
      var z := r * m.cos(theta);
      Conversion(false, Cylindrical(rho, phi, z))
    case SphericalFamily => Conversion(false, Spherical(r, theta, phi))
  }

  /** The interface call `c.to<target>()`: one step in the conversion
      graph. It finishes (flag false, value of the requested family)
      exactly when source and target share a dimension group; otherwise it
      hands back the receiver unchanged with the flag set. Asking for the
      receiver's own family returns the receiver itself. */
  function Convert(c: Coord, target: Family, m: Math): (r: Conversion)
    ensures r.retry <==> !SameGroup(FamilyOf(c), target)
    ensures r.retry ==> r.value == c
    ensures !r.retry ==> FamilyOf(r.value) == target
    ensures target == FamilyOf(c) ==> r == Conversion(false, c)
    ensures SameGroup(FamilyOf(r.value), FamilyOf(c))
  {
    match c
    case Decart2d(x, y) => Decart2dConvert(x, y, target, m)
    case Polar(rho, phi) => PolarConvert(rho, phi, target, m)
    case Decart3d(x, y, z) => Decart3dConvert(x, y, z, target, m)
    case Cylindrical(rho, phi, z) => CylindricalConvert(rho, phi, z, target, m)
    case Spherical(r, theta, phi) => SphericalConvert(r, theta, phi, target, m)
  }

  // ---------------------------------------------------------------------
  // setCoordinates: Kotlin overwrites the receiver's fields in place; the
  // model returns the receiver with its new fields. SphericalCoordinates
  // has no setter.
  // ---------------------------------------------------------------------

  function Decart2dSet(c: Coord, x: real, y: real): (r: Coord)
    requires c.Decart2d?
    ensures FamilyOf(r) == FamilyOf(c)
    ensures Values(r) == [x, y]
  {
    Decart2d(x, y)
  }

  function PolarSet(c: Coord, rho: real, phi: real): (r: Coord)
    requires c.Polar?
    ensures FamilyOf(r) == FamilyOf(c)
    ensures Values(r) == [rho, phi]
  {
    Polar(rho, phi)
  }

  function Decart3dSet(c: Coord, x: real, y: real, z: real): (r: Coord)
    requires c.Decart3d?
    ensures FamilyOf(r) == FamilyOf(c)
    ensures Values(r) == [x, y, z]
  {
    Decart3d(x, y, z)
  }

  function CylindricalSet(c: Coord, rho: real, phi: real, z: real): (r: Coord)
    requires c.Cylindrical?
    ensures FamilyOf(r) == FamilyOf(c)
    ensures Values(r) == [rho, phi, z]
  {
    Cylindrical(rho, phi, z)
  }
}
