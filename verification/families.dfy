/** The five coordinate families, their display constants (name and field
    symbols), and the geometric adjacency graph between them. */
module Families {

  /** One value per implementing class of the `Coordinates` interface; a
      conversion request names its target by one of these. */
  datatype Family =
    | Decart2dFamily
    | PolarFamily
    | Decart3dFamily
    | CylindricalFamily
    | SphericalFamily

  /** The 2-D dimension group: plane Cartesian and polar. */
  predicate Planar(f: Family) {
    f == Decart2dFamily || f == PolarFamily
  }

  /** Two families belong to the same dimension group. */
  predicate SameGroup(a: Family, b: Family) {
    Planar(a) == Planar(b)
  }

  /** The undirected geometric adjacency graph: the pairs of families that
      have a closed-form conversion formula between them. */
  const Edges: set<(Family, Family)> :=
    {(Decart2dFamily, PolarFamily),
     (Decart3dFamily, CylindricalFamily),
     (Decart3dFamily, SphericalFamily),
     (CylindricalFamily, SphericalFamily)}

  predicate Adjacent(a: Family, b: Family) {
    (a, b) in Edges || (b, a) in Edges
  }

  /** Each dimension group is a complete graph and no edge leaves it: two
      distinct families are adjacent exactly when they share a group. */
  lemma AdjacentIffSameGroup(a: Family, b: Family)
    requires a != b
    ensures Adjacent(a, b) <==> SameGroup(a, b)
  {
  }

  /** `getName`: the human-readable (Russian) name of each family. */
  function Name(f: Family): (s: string)
    ensures |s| > 0
  {
    match f
    case Decart2dFamily => "Двумерные декартовы координаты"
    case PolarFamily => "Полярные координаты"
    case Decart3dFamily => "Трехмерные декартовы координаты"
    case CylindricalFamily => "Цилинричнские координаты"
    case SphericalFamily => "Сферические координаты"
  }

  /** No two families share a name, so the name identifies the family. */
  lemma NameIdentifiesFamily(a: Family, b: Family)
    ensures Name(a) == Name(b) <==> a == b
  {
  }

  /** `getFields`: the ordered field symbols of each family. */
  function Fields(f: Family): (syms: seq<char>)
    ensures |syms| == if Planar(f) then 2 else 3
    ensures forall i, j :: 0 <= i < j < |syms| ==> syms[i] != syms[j]
    ensures '\n' !in syms
  {
    match f
    case Decart2dFamily => ['x', 'y']
    case PolarFamily => ['ρ', 'φ']
    case Decart3dFamily => ['x', 'y', 'z']
    case CylindricalFamily => ['ρ', 'φ', 'z']
    case SphericalFamily => ['r', 'θ', 'φ']
  }

  /** The symbols of angular fields; their rendered value carries a `rad`
      suffix. */
  predicate IsAngle(sym: char) {
    sym == 'φ' || sym == 'θ'
  }
}
