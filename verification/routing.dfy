/** Properties of the conversion table as a graph: which requests finish,
    which families a caller can ever reach by chaining `to*` calls, and
    which fields survive a round trip. */
module Routing {
  import opened Families
  import opened Coordinates

  /** The retry flag is exactly "the target is neither the receiver's own
      family nor adjacent to it" in the geometric adjacency graph. */
  lemma FlagFollowsAdjacency(c: Coord, target: Family, m: Math)
    ensures Convert(c, target, m).retry
        <==> target != FamilyOf(c) && !Adjacent(FamilyOf(c), target)
  {
  }

  /** A caller applying `to*` calls one after another, each to the value
      the previous call returned, whatever its flag. */
  function Chain(c: Coord, targets: seq<Family>, m: Math): (r: Coord)
    ensures SameGroup(FamilyOf(r), FamilyOf(c))
    decreases |targets|
  {
    if |targets| == 0 then c
    else Chain(Convert(c, targets[0], m).value, targets[1..], m)
  }

  /** The families a chain can reach from `c` are exactly those of its
      dimension group, and one call suffices for each of them. */
  lemma ReachableFamilies(c: Coord, f: Family, m: Math)
    ensures (exists ts :: FamilyOf(Chain(c, ts, m)) == f) <==> SameGroup(FamilyOf(c), f)
  {
    if SameGroup(FamilyOf(c), f) {
      var ts := [f];
      assert ts[1..] == [];
      assert Chain(c, ts, m) == Convert(c, f, m).value;
      assert FamilyOf(Chain(c, ts, m)) == f;
      assert exists ts' :: FamilyOf(Chain(c, ts', m)) == f;
    }
  }

  /** No preparatory chain of conversions lets a request across the
      dimension groups finish: it always answers the retry signal with the
      value it was called on. */
  lemma CrossGroupNeverFinishes(c: Coord, ts: seq<Family>, f: Family, m: Math)
    requires !SameGroup(FamilyOf(c), f)
    ensures Convert(Chain(c, ts, m), f, m) == Conversion(true, Chain(c, ts, m))
  {
  }

  /** Re-issuing a request that signalled retry any number of times never
      moves: a caller that loops on the flag alone does not terminate. */
  lemma {:induction false} RetryLoopIsStuck(c: Coord, f: Family, n: nat, m: Math)
    requires Convert(c, f, m).retry
    ensures Chain(c, seq(n, _ => f), m) == c
  {
    if n > 0 {
      var ts := seq(n, _ => f);
      assert ts[1..] == seq(n - 1, _ => f);
      RetryLoopIsStuck(c, f, n - 1, m);
    }
  }

  /** `z` is carried unchanged through Decart3d -> cylindrical -> Decart3d
      and through cylindrical -> Decart3d -> cylindrical. */
  lemma HeightSurvivesRoundTrips(x: real, y: real, z: real, rho: real, phi: real, m: Math)
    ensures Convert(Convert(Decart3d(x, y, z), CylindricalFamily, m).value, Decart3dFamily, m).value.z == z
    ensures Convert(Convert(Cylindrical(rho, phi, z), Decart3dFamily, m).value, CylindricalFamily, m).value.z == z
  {
  }

  /** `phi` is carried unchanged through cylindrical -> spherical ->
      cylindrical and through spherical -> cylindrical -> spherical. */
  lemma AzimuthSurvivesRoundTrips(rho: real, phi: real, z: real, r: real, theta: real, m: Math)
    ensures Convert(Convert(Cylindrical(rho, phi, z), SphericalFamily, m).value, CylindricalFamily, m).value.phi == phi
    ensures Convert(Convert(Spherical(r, theta, phi), CylindricalFamily, m).value, SphericalFamily, m).value.phi == phi
  {
  }

  /** Going from Decart3d to spherical directly or via cylindrical gives
      the same azimuth `atan2(y, x)`. (The polar angle differs: the direct
      route uses `atan(sqrt(x*x + y*y) / z)`, the cylindrical one
      `atan2(rho, z)`.) */
  lemma AzimuthIndependentOfRoute(x: real, y: real, z: real, m: Math)
    ensures Convert(Convert(Decart3d(x, y, z), CylindricalFamily, m).value, SphericalFamily, m).value.phi
         == Convert(Decart3d(x, y, z), SphericalFamily, m).value.phi
         == m.atan2(y, x)
  {
  }

  /** Spherical -> Decart3d directly and via cylindrical perform the very
      same operations, so they agree exactly. */
  lemma SphericalToDecart3dCommutes(r: real, theta: real, phi: real, m: Math)
    ensures Convert(Convert(Spherical(r, theta, phi), CylindricalFamily, m).value, Decart3dFamily, m)
         == Convert(Spherical(r, theta, phi), Decart3dFamily, m)
  {
  }
}
