# Coordinates translator — conversion table model

A Dafny model of the core of the Kotlin coordinates translator
(`src/com/volodya/coordinates/Coordinates.kt`). The program has five
coordinate classes behind one `Coordinates` interface: 2-D Cartesian
(`Decart2d`), polar, 3-D Cartesian (`Decart3d`), cylindrical and spherical.
Each class answers five conversion requests, `toDecart2d` through
`toSpherical`, with a pair `(Boolean, Coordinates)`:

- `(false, this)` for its own family;
- `(false, new value)` for a directly adjacent family, computed by a
  closed-form formula;
- `(true, this)` otherwise, meaning "cannot get there from here".

Each class also has a display name, a list of field symbols and a text
rendering `getCoordinates(precision)`. Four of the five classes have a
`setCoordinates` setter.

## Structure

- `families.dfy`, module `Families`: the five families as an enum, the two
  dimension groups, the geometric adjacency graph (edges Decart2d–polar,
  Decart3d–cylindrical, Decart3d–spherical, cylindrical–spherical), and the
  `getName`/`getFields` constants. `Families.AdjacentIffSameGroup` proves
  that two distinct families are adjacent exactly when they share a
  dimension group; it is the bridge between the group-based contract of
  `Coordinates.Convert` and the edge-based `Routing.FlagFollowsAdjacency`.
- `coordinates.dfy`, module `Coordinates`: one `Coord` datatype with a
  constructor per class and `real` fields. `Math` bundles `sqrt`, `atan`,
  `atan2`, `sin`, `cos` and `Double` division as uninterpreted function
  parameters. The module holds one conversion function per class and the
  interface dispatch `Convert`. In the model, the argument `target`
  stands for which of the five `to*` methods is called. It also holds the
  four setters. Their contracts state the result through `FamilyOf` and
  `Values`; `Coordinates.ValuesDetermineCoord` proves that a family and its
  stored fields determine a point, so each setter's result is pinned to
  exactly one value.
- `rendering.dfy`, module `Rendering`: the five `getCoordinates` bodies as
  written in the source. Each one is proved equal to a single layout rule:
  one line per field symbol, `sym: value`, `rad` after φ and θ, `;` and a
  newline after every line but the last, and `.` after the last. The
  module also proves the resulting line count and terminator.
  `doubleToString` is an abstract `Formatter` parameter.
- `routing.dfy`, module `Routing`: the table viewed as a graph. It covers
  agreement with the adjacency graph, chains of calls, reachability, the
  stuck retry loop, and fields carried through round trips.

Decart3d → spherical computes the polar angle as `atan(sqrt(x*x + y*y) / z)`,
unlike the `atan2(rho, z)` that cylindrical → spherical uses; the model
follows the code. It keeps the division as the uninterpreted total
`Math.quot`, because `Double` division by `z = 0` does not fail.

## Model

| member | source | states |
|---|---|---|
| Families.Name | src/com/volodya/coordinates/Coordinates.kt:20-24 | `getName` of each family is non-empty; the exact strings are the definition, not part of the contract (admitted under Left out) |
| Families.NameIdentifiesFamily | src/com/volodya/coordinates/Coordinates.kt:20-24 | the five `getName` constants are pairwise distinct, so a name determines its family |
| Families.Fields | src/com/volodya/coordinates/Coordinates.kt:26-30 | `getFields` has 2 symbols for the plane families and 3 for the space families; the symbols are pairwise distinct and none is a line break |
| Coordinates.Decart2dConvert | src/com/volodya/coordinates/Coordinates.kt:51-67 | a Decart2d request sets the flag exactly for the three 3-D targets and then returns the receiver; otherwise the value has the requested family, and for Decart2d it is the receiver itself |
| Coordinates.PolarConvert | src/com/volodya/coordinates/Coordinates.kt:95-111 | a polar request sets the flag exactly for the 3-D targets and then returns the receiver; otherwise the value has the requested family, and for polar it is the receiver itself |
| Coordinates.Decart3dConvert | src/com/volodya/coordinates/Coordinates.kt:143-162 | a Decart3d request sets the flag exactly for the 2-D targets and then returns the receiver; otherwise the value has the requested family; for Decart3d it is the receiver, and the cylindrical result keeps `z` |
| Coordinates.CylindricalConvert | src/com/volodya/coordinates/Coordinates.kt:197-215 | a cylindrical request sets the flag exactly for the 2-D targets and then returns the receiver; otherwise the value has the requested family; for cylindrical it is the receiver, the Decart3d result keeps `z` and the spherical result keeps `phi` |
| Coordinates.SphericalConvert | src/com/volodya/coordinates/Coordinates.kt:246-265 | a spherical request sets the flag exactly for the 2-D targets and then returns the receiver; otherwise the value has the requested family; for spherical it is the receiver, and the cylindrical result keeps `phi` |
| Coordinates.Convert | src/com/volodya/coordinates/Coordinates.kt:12-16 | for any receiver and target: the flag is set exactly when they lie in different dimension groups, and then the receiver comes back; a cleared flag means the value has the target family; the own family gives `(false, receiver)`; the value never leaves the receiver's group |
| Coordinates.Decart2dSet | src/com/volodya/coordinates/Coordinates.kt:46-49 | the setter keeps the family, hence name and field list, and the stored fields become exactly `[x, y]` |
| Coordinates.PolarSet | src/com/volodya/coordinates/Coordinates.kt:90-93 | the setter keeps the family and the stored fields become exactly `[rho, phi]` |
| Coordinates.Decart3dSet | src/com/volodya/coordinates/Coordinates.kt:137-141 | the setter keeps the family and the stored fields become exactly `[x, y, z]` |
| Coordinates.CylindricalSet | src/com/volodya/coordinates/Coordinates.kt:191-195 | the setter keeps the family and the stored fields become exactly `[rho, phi, z]` |
| Rendering.Decart2dText | src/com/volodya/coordinates/Coordinates.kt:68-73 | the text is the layout rule applied to symbols `x, y` and the stored values |
| Rendering.PolarText | src/com/volodya/coordinates/Coordinates.kt:112-117 | the text is the layout rule applied to `ρ, φ`; φ is the angle and gets `rad` |
| Rendering.Decart3dText | src/com/volodya/coordinates/Coordinates.kt:163-169 | the text is the layout rule applied to `x, y, z` |
| Rendering.CylindricalText | src/com/volodya/coordinates/Coordinates.kt:216-222 | the text is the layout rule applied to `ρ, φ, z`; φ gets `rad` |
| Rendering.SphericalText | src/com/volodya/coordinates/Coordinates.kt:266-272 | the text is the layout rule applied to `r, θ, φ`; θ and φ get `rad` |
| Rendering.Render | src/com/volodya/coordinates/Coordinates.kt:17 | `getCoordinates` of any point is the layout rule applied to its family's field symbols and its stored values, in order |
| Rendering.LayoutNewlines | src/com/volodya/coordinates/Coordinates.kt:68-272 | a layout of n fields has exactly n - 1 line breaks, provided the formatter emits none |
| Rendering.RenderShape | src/com/volodya/coordinates/Coordinates.kt:17 | a rendering has one line per field, so 2 lines for plane families and 3 for space families; it starts with the first symbol and `": "` and ends with `.` |
| Rendering.PolarRenderingExample | src/com/volodya/coordinates/Coordinates.kt:112-117 | Decart2d(3, 4) converts to polar in one call; given a formatter that prints the radius as `5.00` and the angle as `0.93` at precision 2 (a locale-dependent assumption), it renders as `ρ: 5.00;` newline `φ: 0.93rad.` |
| Routing.FlagFollowsAdjacency | src/com/volodya/coordinates/Coordinates.kt:12-16 | the flag is set exactly when the target is neither the receiver's family nor adjacent to it in the geometric graph |
| Routing.Chain | src/com/volodya/coordinates/Coordinates.kt:12-16 | any sequence of `to*` calls, each on the previous value, ends in the starting point's dimension group |
| Routing.ReachableFamilies | src/com/volodya/coordinates/Coordinates.kt:12-16 | a family can be reached by some chain from a point exactly when it is in that point's group |
| Routing.CrossGroupNeverFinishes | src/com/volodya/coordinates/Coordinates.kt:12-16 | after any chain, a request for the other group still returns `(true, current value)` |
| Routing.RetryLoopIsStuck | src/com/volodya/coordinates/Coordinates.kt:12-16 | re-issuing a flagged request any number of times returns the starting point, so retrying on the flag alone never ends |
| Routing.HeightSurvivesRoundTrips | src/com/volodya/coordinates/Coordinates.kt:152-207 | `z` survives Decart3d → cylindrical → Decart3d and cylindrical → Decart3d → cylindrical exactly |
| Routing.AzimuthSurvivesRoundTrips | src/com/volodya/coordinates/Coordinates.kt:211-261 | `phi` survives cylindrical → spherical → cylindrical and spherical → cylindrical → spherical exactly |
| Routing.AzimuthIndependentOfRoute | src/com/volodya/coordinates/Coordinates.kt:152-215 | Decart3d → spherical gives the same azimuth `atan2(y, x)` directly and via cylindrical |
| Routing.SphericalToDecart3dCommutes | src/com/volodya/coordinates/Coordinates.kt:203-261 | spherical → Decart3d directly and via cylindrical give the identical point |

## Left out

- Numeric content of the formulas. `sqrt`, `atan`, `atan2`, `sin`, `cos` and `Double` division are uninterpreted parameters. No round-trip accuracy, angle range or `z = 0` behaviour is modelled: these are floating-point facts. `Double` is modelled as `real`.
- `doubleToString` and its `String.format` call are a foreign library call, taken as an abstract `Formatter`. No digits and no locale (decimal separator) are modelled.
- Rendering.Render: the source throws for a negative precision (`String.format` rejects `%.-1f`); the model takes the precision as a `nat`, so that error path is not modelled.
- Families.Fields: models the arrays' initial contents; the Kotlin arrays are shared and writable, so a caller writing into the array returned by `getFields` would change every later `getFields` of that family (while `getCoordinates` keeps its literal labels). That aliasing is not modelled.
- The accessors `getX`, `getY`, `getZ`, `getRho`, `getPhi`, `getRadius` and `getTheta` are left out. The model reads fields directly. `Decart2d.getY` and `Decart3d.getY`/`getZ` return `x`, which is a defect, and the model does not adopt it.
- Object identity: `(false, this)` and `(true, this)` return the receiver object itself. In Kotlin, a later `setCoordinates` on the result is visible through the original reference. The model has value semantics and returns an equal value.
- `SphericalCoordinates` has no `setCoordinates` in the source, so none is modelled.
- There is no multi-hop dispatcher and no "unsupported conversion" result, because the source has neither. Chains are stated as lemmas over the `to*` table only.
- Families.Name: its contract only says the name is non-empty. The exact strings are its definition, and their distinctness is `Families.NameIdentifiesFamily`.
