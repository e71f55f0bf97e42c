# Binned surface material of the Acts tracking toolkit, in Dafny

This project models the material description that navigation reads when a
track crosses a surface. It has two parts:

- `Materials` (materials.dfy) models `MaterialProperties`. This is a value type that
  pairs a `Material` with a thickness. It caches that thickness as a fraction of the
  radiation length X0 and of the nuclear interaction length L0. The module covers the
  vacuum, parameter and material constructors, the averaging constructor (a loop over
  the layers), scaling, the truth value, and equality and inequality.
- `SurfaceMaterials` (binned_surface_material.dfy) models `BinnedSurfaceMaterial`. This
  is a class that holds a bin utility and a matrix of `MaterialProperties` indexed
  `[bin1][bin0]`. It also holds a split factor and an entry count. The module covers
  the one- and two-dimensional constructors, copy, `clone()`, assignment (with its
  `clearMaterial`/`fillMaterial` helpers) and in-place scaling over the matrix. It also
  covers the three `material(...)` lookups.

Some modelling decisions:

- Every `float`/`double` is a `real`. A `MaterialProperties` value keeps the invariant
  `Consistent`: its cached fractions equal thickness / X0 and thickness / L0. A length
  that is not positive gives a fraction of zero, so vacuum has zero fractions. Every
  constructor establishes this invariant and scaling keeps it.
- The headers declare `operator*=` on both classes but do not show its body. In the
  model, scaling a `MaterialProperties` multiplies the thickness and both fractions.
  Because the class is a value type, that update in place is the function `Scaled`,
  whose result the caller stores back. The model scales a `BinnedSurfaceMaterial` by
  changing its matrix field in place, cell by cell, with two nested loops.
- The accessors `binUtility()`, `fullMaterial()` and `entries()` are the class's public
  fields `binUtility`, `fullMaterial` and `entries`. The constructors' contracts say what
  those fields hold.
- The header declares `material(bin0, bin1)` as returning a pointer, but its body
  returns the cell itself. The model returns the cell's value.
- The bin utility is a record. It holds the bin counts of both axes and two
  uninterpreted maps, one from a local position and one from a global position, to a
  bin pair. The only thing the model assumes about those maps is that every position
  lands inside the declared bins.
- The averaging constructor's body is not shown either. The model uses the
  absorption-length mixing rule for it. Thickness and
  both fractions add up over the layers. The mixture's X0 and L0 are the lengths in which
  the total thickness makes up the summed fractions. Density is total mass over total
  thickness. A and Z are mass-weighted means. With `normalize` the same material budget
  is brought to unit thickness: X0 and L0 shrink by the thickness and the density grows
  by it, so both fractions are kept. A zero-thickness instance of a medium is not vacuum.
  The truth value depends on the material alone (MaterialProperties.hpp:65), and the
  model follows that code.

## Model

| member | source | states |
|---|---|---|
| `Materials.Default` | Core/include/Acts/Material/MaterialProperties.hpp:76-80 | default construction is vacuum: invalid material, thickness 0, both fractions 0, invariant holds |
| `Materials.VacuumWithThickness` | Core/include/Acts/Material/MaterialProperties.hpp:31-32 | vacuum with thickness stores the thickness, keeps zero fractions and still converts to false |
| `Materials.FromParameters` | Core/include/Acts/Material/MaterialProperties.hpp:33-42 | stores the five constants and the thickness; thicknessInX0 = t/X0 and thicknessInL0 = t/L0 for positive lengths; true exactly when X0, L0 and density are positive |
| `Materials.FromMaterial` | Core/include/Acts/Material/MaterialProperties.hpp:43-47 | stores material and thickness; truth value is the material's; for a non-vacuum material the fractions are t/X0 and t/L0 |
| `Materials.IsValid` | Core/include/Acts/Material/MaterialProperties.hpp:64-65 | `operator bool` is the material's own truth value; a true value is never the default vacuum, and then each fraction times its length gives back the thickness (that it ignores thickness is `TruthIgnoresThickness`) |
| `Materials.Equal` | Core/include/Acts/Material/MaterialProperties.hpp:82-87 | `operator==` compares material and thickness only; on consistent values it holds iff the whole values are identical (with `EqualIsIdentity` and `EqualIgnoresFractions`) |
| `Materials.Scaled` | Core/include/Acts/Material/MaterialProperties.hpp:61-62 | scaling multiplies the thickness, keeps the material and the truth value, and keeps the fractions consistent |
| `Materials.ScaleByOne` | Core/include/Acts/Material/MaterialProperties.hpp:61-62 | scaling by 1 is the identity, fractions included |
| `Materials.ScaleTwice` | Core/include/Acts/Material/MaterialProperties.hpp:71-74 | scaling by s1 then s2 equals scaling by s1*s2, on all four fields |
| `Materials.ScaleFromMaterial` | Core/include/Acts/Material/MaterialProperties.hpp:43-62 | scaling a value built from (material, t) equals building it from (material, t*s) |
| `Materials.TruthIgnoresThickness` | Core/include/Acts/Material/MaterialProperties.hpp:64-65 | the truth value depends only on the material, never on thickness; vacuum of any thickness is false |
| `Materials.EqualIsIdentity` | Core/include/Acts/Material/MaterialProperties.hpp:82-87 | for consistent values, comparing material and thickness holds iff the whole values are identical |
| `Materials.EqualIgnoresFractions` | Core/include/Acts/Material/MaterialProperties.hpp:84-87 | values that differ only in the cached fractions compare equal and not unequal |
| `Materials.NotEqual` | Core/include/Acts/Material/MaterialProperties.hpp:88-91 | `!=` holds iff the materials or the thicknesses differ, the negation of `==` |
| `Materials.ToUnitThickness` | Core/include/Acts/Material/MaterialProperties.hpp:51-53 | normalising gives thickness 1 with the same fractions, A, Z and truth value, density times thickness |
| `Materials.Average` | Core/include/Acts/Material/MaterialProperties.hpp:48-53 | the average is consistent; with normalize its thickness is 1, otherwise the summed thickness; layers without thickness give vacuum |
| `Materials.AverageLayers` | Core/include/Acts/Material/MaterialProperties.hpp:48-53 | the loop over the layers computes exactly the average the mixing rule defines |
| `Materials.AverageKeepsBudget` | Core/include/Acts/Material/MaterialProperties.hpp:48-53 | for a positive total thickness, each of the average's X0 and L0 fractions is the sum of the layers' fractions whenever that sum is not negative, normalised or not |
| `Materials.AverageOfOne` | Core/include/Acts/Material/MaterialProperties.hpp:48-50 | averaging one layer of a medium returns that layer unchanged |
| `Materials.AverageOfTwoEqual` | Core/include/Acts/Material/MaterialProperties.hpp:48-53 | averaging two equal layers keeps the material at twice the thickness; normalised, thickness 1 with twice the fractions |
| `SurfaceMaterials.BinnedSurfaceMaterial.FromVector` | Core/include/Acts/Material/BinnedSurfaceMaterial.hpp:33-48 | the vector becomes the single row, so `material(i, 0)` is its i-th entry; split factor defaults to 0 and entries to 1, both stored as given |
| `SurfaceMaterials.BinnedSurfaceMaterial.FromMatrix` | Core/include/Acts/Material/BinnedSurfaceMaterial.hpp:50-65 | stores utility, matrix, split factor (default 0) and entries (default 1); `material(b0, b1)` is `matrix[b1][b0]` for every bin in range |
| `SurfaceMaterials.BinnedSurfaceMaterial.Copy` | Core/include/Acts/Material/BinnedSurfaceMaterial.hpp:67-70 | the copy has equal utility, matrix, split factor and entries |
| `SurfaceMaterials.BinnedSurfaceMaterial.Clone` | Core/include/Acts/Material/BinnedSurfaceMaterial.hpp:75-77 | returns a fresh object with equal utility, matrix, split factor and entries |
| `SurfaceMaterials.BinnedSurfaceMaterial.Assign` | Core/include/Acts/Material/BinnedSurfaceMaterial.hpp:79-81 | afterwards this object holds the other's utility, matrix, split factor and entries, self-assignment included |
| `SurfaceMaterials.BinnedSurfaceMaterial.ClearMaterial` | Core/include/Acts/Material/BinnedSurfaceMaterial.hpp:128-130 | the matrix is emptied |
| `SurfaceMaterials.BinnedSurfaceMaterial.FillMaterial` | Core/include/Acts/Material/BinnedSurfaceMaterial.hpp:132-134 | the row-by-row, cell-by-cell refill appends exactly the given matrix to what is there, so after `ClearMaterial` the matrix is the given one |
| `SurfaceMaterials.BinnedSurfaceMaterial.Scale` | Core/include/Acts/Material/BinnedSurfaceMaterial.hpp:83-87 | every cell becomes that cell scaled by s, so every lookup returns the scaled old entry; shape and invariant kept, nothing else touched |
| `SurfaceMaterials.BinnedSurfaceMaterial.MaterialAt` | Core/include/Acts/Material/BinnedSurfaceMaterial.hpp:149-153 | cell at row bin1, column bin0, defined only inside the matrix; on a valid object those are exactly the utility's bins and the cell is consistent |
| `SurfaceMaterials.BinnedSurfaceMaterial.MaterialAtLocal` | Core/include/Acts/Material/BinnedSurfaceMaterial.hpp:97-99 | the local position's bins are in range and the result is `material(bin0, bin1)` for them |
| `SurfaceMaterials.BinnedSurfaceMaterial.MaterialAtGlobal` | Core/include/Acts/Material/BinnedSurfaceMaterial.hpp:101-103 | the global position's bins are in range and the result is `material(bin0, bin1)` for them |
| `SurfaceMaterials.LookupIgnoresSplitFactor` | Core/include/Acts/Material/BinnedSurfaceMaterial.hpp:36-47 | lookups depend on the utility and the matrix only, never on split factor or entries |
| `SurfaceMaterials.CloneThenScale` | Core/include/Acts/Material/BinnedSurfaceMaterial.hpp:67-87 | scaling a clone scales every cell of the clone and leaves the source's matrix unchanged |

## Left out

- The static navigation engine (Core/include/ACTS/Extrapolation/StaticNavigationEngine.hpp). That header only declares `resolveBoundary`, `resolvePosition` and `handleBoundaryT`. Their bodies are in `detail/StaticNavigationEngine.icc`, which is not part of this model. The propagation engine, the material-effects engine and the tracking geometry they depend on are not part of this model either.
- Bin utility internals: how a position is mapped to a bin and how out-of-range positions are clamped. The bin utility is not part of this model beyond its bin counts and the assumption that every position maps into range.
- Material.hpp is not part of this model. Its truth value is taken to be "X0, L0 and density all positive", and its default value is all zeros.
- The base class `SurfaceMaterial`, which keeps the split factor, is not part of this model. The split factor is a plain field that constructors, copies and assignment carry along.
- Floating-point precision. Single- and double-precision numbers are reals, so this model has no rounding and no narrowing of the `double` scale factor passed to each cell's `float` scaling.
- Materials.Average: for an empty layer list, a zero total thickness or a negative total thickness (reachable by scaling with a negative factor) the model returns vacuum with zero thickness, so the unit-thickness and summed-thickness promises are proved only for a positive total thickness. The source body is not shown, so what it does in these cases is not known; a plain division by the total would give NaN for zero.
- Materials.Average: the source body of the averaging constructor is not part of this model. The model follows the mixing rule described above. A, Z and density use mass weighting, and that weighting is this model's choice.
- The bodies of the constructors, `operator*=`, `clone()`, assignment, `clearMaterial`, `fillMaterial` and the position lookups are not in the headers; only their declarations are. The model makes these choices for them: a fraction is thickness over length only for a positive length and zero otherwise (`Quotient`); `operator*=` scales the thickness and both fractions; assignment does nothing when given the object itself (`Assign`); `fillMaterial` appends row by row to the matrix, which `clearMaterial` has emptied before (`FillMaterial`); normalising keeps the material budget by dividing X0 and L0 by the thickness and multiplying the density by it (`ToUnitThickness`); a position lookup reads the cell of the bins the utility returns.
- `dump`, `operator<<` and the logger: stream output only.
- The move constructors and move assignments of `MaterialProperties` are defaulted. A Dafny datatype value is copied, so moving and copying are the same here.
