# Roadway dispersion engine: a Dafny model

This project models the numerical engine of a roadway dispersion model, the
Java package `roadway_dispersion`. A sampling site holds highway links
(straight road segments with a width and a line-source strength) and
receptors (points where the concentration is wanted). Running a simulation
gives every receptor copies of the site's links. Each copy asks an adaptive
discretizer (`highway_point_spacing`) to replace the link by a grid of point
sources. Each point source contributes a concentration at the receptor
through the Huang formula. A link's concentration is the sum over its points,
a receptor holds one slot per link plus a running total, and the site
collects everything in a matrix `[total, link 1 .. link N]` per receptor,
scaled by a unit factor.

The model follows the Java class by class:

| file | module | models |
|---|---|---|
| `coordinate.dfy` | `Coordinates` | `coordinate`: a class with in-place `Add`/`Subtract`/`Multiply`/`HorizontalRotation`, over the value type `Vec3` |
| `parameters.dfy` | `Parameters` | the data records `dispersion` and `huang` |
| `numerics.dfy` | `Numerics` | constants, `Abs`/`Floor`/`Ceil`, and the library routines as the parameter record `Transcendentals` |
| `outcomes.dfy` | `Outcomes` | the faults the source ends in (its error handler or a Java runtime exception) |
| `point_vector.dfy` | `PointVectors` | `point_vector`: the three `add_points` overloads and `getPoint_array` |
| `point.dfy` | `PointSources` | `point`: `normalize` and the guard structure of `calculate_contribution` |
| `spacing_settings.dfy` | `SpacingConfiguration` | the static spacing configuration of `highway_point_spacing` and its setters |
| `spacing_spec.dfy` | `SpacingSpec` | the region table as values: layout, clipping, optimisation |
| `grid_spec.dfy` | `GridSpec` | the point grids as values: profiles, strips, strengths, mass conservation |
| `highway_point_spacing.dfy` | `HighwayPointSpacing` | the discretizer object and its array-manipulating steps |
| `highway_link.dfy` | `HighwayLinks` | `link` and `highway_link`, merged into one class |
| `receptor.dfy` | `Receptors` | `receptor` |
| `site_description.dfy` | `SiteDescriptions` | `site_description` |

Each imperative step of the source is a method over arrays and class
fields. The method is proved against a function on values (`LaidOut`,
`Optimized`, `NormalPoints`, `LinkConcentration`, `Totals`, `Simulation`),
and the properties the source promises are proved about those functions as
lemmas:

- the mirror-symmetric region table;
- clipping to the link;
- optimisation that keeps exactly the long regions, re-tiled;
- point grids that are Cartesian products;
- strengths that conserve the line source's mass;
- per-link slots whose total is their sum;
- the matrix rows.

Faults are modelled as values. Array index exceptions, null references, an
unknown pollutant and a negative concentration are `Halted(fault)` or
`Err(fault)` outcomes, and each contract says exactly when they occur.

The model states one consequence of the source plainly, in
`SimulationCases`, `SimulationSucceeds` and `RerunFails`:

- `run_simulation` appends copies of the site links after the links a
  receptor already owns.
- `create_conc_matrix` then writes one column per slot.
- So any receptor that already owned links makes the matrix fill run past
  its `links.size() + 1` columns.
- `RunSimulation` leaves every receptor holding its copies of the site
  links, so a second simulation of the same site meets exactly that case
  (`RerunFails`).
- The result is an index fault.

## Model

| member | source | states |
|---|---|---|
| Coordinates.Coordinate.constructor | src/model/roadway_dispersion/coordinate.java:47-52 | the default coordinate is the origin |
| Coordinates.Coordinate.Copy | src/model/roadway_dispersion/coordinate.java:60-65 | the copy constructor yields a new object equal to its argument |
| Coordinates.Coordinate.At | src/model/roadway_dispersion/coordinate.java:74-79 | the (x, y, z) constructor holds exactly those components |
| Coordinates.Coordinate.SetAll | src/model/roadway_dispersion/coordinate.java:152-157 | after set_all the coordinate reads back the three values set |
| Coordinates.Coordinate.Add | src/model/roadway_dispersion/coordinate.java:238-243 | component-wise sum of the old values, correct even when the argument is the object itself |
| Coordinates.Coordinate.Subtract | src/model/roadway_dispersion/coordinate.java:250-255 | component-wise difference of the old values, correct even under aliasing |
| Coordinates.Coordinate.Multiply | src/model/roadway_dispersion/coordinate.java:262-267 | x, y and z all scaled by the same factor |
| Coordinates.Coordinate.HorizontalRotation | src/model/roadway_dispersion/coordinate.java:223-231 | the new value is the rotation of the old one about the z-axis, and z is untouched |
| Coordinates.Coordinate.Clone | src/model/roadway_dispersion/coordinate.java:298-303 | a fresh object equal to the original |
| Coordinates.TranslationRoundTrip | src/model/roadway_dispersion/coordinate.java:238-255 | adding then subtracting an offset, or subtracting then adding it, restores the value exactly |
| Coordinates.TranslateAndRestore | src/model/roadway_dispersion/highway_point_spacing.java:441-443 | subtracting an offset held in another object and adding it back restores the coordinate and leaves the offset unchanged |
| Coordinates.DotSymmetric | src/model/roadway_dispersion/coordinate.java:185-188 | the dot product is symmetric |
| Coordinates.DotExample | src/model/roadway_dispersion/coordinate.java:360 | the self-test value: <3,-1,2> . <-4,0,2> = -8 |
| Coordinates.HorizontalAngleRange | src/model/roadway_dispersion/coordinate.java:198-212 | given atan2 in [-pi, pi], the horizontal angle lies in [0, 2 pi) |
| Coordinates.RotationKeepsElevation | src/model/roadway_dispersion/coordinate.java:223-231 | a horizontal rotation keeps the elevation |
| Numerics.Abs | src/model/roadway_dispersion/point.java:247 | Math.abs: non-negative, and equal to x or -x |
| Numerics.Floor | src/model/roadway_dispersion/point_vector.java:84-85 | Math.floor as an integer: the greatest integer not above x |
| Numerics.Ceil | src/model/roadway_dispersion/highway_point_spacing.java:760-778 | Math.ceil as an integer: the least integer not below x |
| PointVectors.Steps | src/model/roadway_dispersion/point_vector.java:93-99 | a run of n values, none for a count below 1 |
| PointVectors.StepsAt | src/model/roadway_dispersion/point_vector.java:93-99 | value i of a run is start + i * step |
| PointVectors.SpacedWarnings | src/model/roadway_dispersion/point_vector.java:66-75 | the spacing overload reports a reversed range exactly when l > u, and a too-wide spacing exactly when s > u - l |
| PointVectors.LinearWarnings | src/model/roadway_dispersion/point_vector.java:111-164 | the count overload reports l > u, a count below 1, a count of 1 and an unknown function type, each exactly when it holds |
| PointVectors.PointVector.constructor | src/model/roadway_dispersion/point_vector.java:48-52 | an empty profile and no array |
| PointVectors.PointVector.AddSpaced | src/model/roadway_dispersion/point_vector.java:63-100 | appends the centred spaced run to the profile, keeps every earlier value, and returns the reports; a zero spacing is accepted only over an empty or reversed range, where it appends nothing |
| PointVectors.PointVector.AddLinear | src/model/roadway_dispersion/point_vector.java:111-164 | appends the linear run (nothing for an unknown type or a count below 1, one value for a count of 1), keeps every earlier value, and returns the reports |
| PointVectors.PointVector.AppendSteps | src/model/roadway_dispersion/point_vector.java:93-99 | the shared append loop: old profile followed by the run |
| PointVectors.PointVector.AddValue | src/model/roadway_dispersion/point_vector.java:169-175 | appends exactly the one value |
| PointVectors.PointVector.GetPointArray | src/model/roadway_dispersion/point_vector.java:182-187 | a fresh array holding the whole profile in insertion order; the profile is unchanged |
| PointVectors.ScaledFloor | src/model/roadway_dispersion/point_vector.java:84-85 | the whole intervals times the spacing do not exceed the range and miss it by less than one spacing |
| PointVectors.SpacedRunLength | src/model/roadway_dispersion/point_vector.java:84-85 | the spacing overload appends floor((u - l) / s) + 1 values |
| PointVectors.SpacedRunSteps | src/model/roadway_dispersion/point_vector.java:90-96 | the run starts half the residual above l and consecutive values differ by s |
| PointVectors.SpacedRunCentred | src/model/roadway_dispersion/point_vector.java:90-96 | the run is centred: first - l == u - last |
| PointVectors.SpacedRunWithin | src/model/roadway_dispersion/point_vector.java:90-99 | every value of the run lies in [l, u] |
| PointVectors.StepsWithin | src/model/roadway_dispersion/point_vector.java:93-99 | a non-decreasing run whose ends lie in [lo, hi] lies wholly in [lo, hi] |
| PointVectors.SpacedRunReversedIsEmpty | src/model/roadway_dispersion/point_vector.java:63-100 | a reversed range with a non-negative spacing appends nothing |
| PointVectors.SpacedRunReversedNegative | src/model/roadway_dispersion/point_vector.java:63-100 | a reversed range with a negative spacing still appends floor((u - l) / s) + 1 >= 1 values |
| PointVectors.SpacedRunTooWideIsMidpoint | src/model/roadway_dispersion/point_vector.java:84-96 | a spacing wider than the range appends only the midpoint |
| PointVectors.SpacedRunExample | src/model/roadway_dispersion/point_vector.java:63-100 | (1, 10, 3) appends 1, 4, 7, 10 |
| PointVectors.LinearRunEnds | src/model/roadway_dispersion/point_vector.java:145-153 | a linear run of n >= 2 values starts at l, ends at u and has equal steps (u - l)/(n - 1) |
| PointVectors.LinearRunExample | src/model/roadway_dispersion/point_vector.java:200 | (0, 10, 5, LINEAR) gives 0, 2.5, 5, 7.5, 10 |
| PointVectors.LinearRunEmptyCases | src/model/roadway_dispersion/point_vector.java:111-164 | the count overload appends nothing exactly when the type is not LINEAR or the count is below 1 |
| PointVectors.LinearRunSingle | src/model/roadway_dispersion/point_vector.java:129-153 | a count of 1 is reported, and the code still appends the one value l + 0 * ((u - l) / 0), which is l over the reals |
| PollutantTypes.Known | src/model/roadway_dispersion/pollutant_type.java:47-81 | selectors 0, 1 and 2 give a record; any other selector is the unknown-pollutant fault |
| PollutantTypes.KnownWeights | src/model/roadway_dispersion/pollutant_type.java:52-75 | CO weighs 28.01, SF6 146.0504 and F13B1 148.91 |
| PollutantTypes.KnownDistinct | src/model/roadway_dispersion/pollutant_type.java:47-81 | the three known pollutants differ in name and in molecular weight |
| PollutantTypes.PollutantType.Select | src/model/roadway_dispersion/pollutant_type.java:47-81 | the selector constructor builds the known record, or fails with the unknown selector |
| PollutantTypes.PollutantType.Described | src/model/roadway_dispersion/pollutant_type.java:27-32 | name, description and molecular weight as given |
| PollutantTypes.PollutantType.Named | src/model/roadway_dispersion/pollutant_type.java:37-42 | the description is "No description" |
| PollutantTypes.PollutantType.SetName | src/model/roadway_dispersion/pollutant_type.java:86-89 | the getter returns the name set and nothing else changes |
| PollutantTypes.PollutantType.SetDescription | src/model/roadway_dispersion/pollutant_type.java:97-100 | the getter returns the description set and nothing else changes |
| PollutantTypes.PollutantType.SetMolecularWeight | src/model/roadway_dispersion/pollutant_type.java:109-112 | the getter returns the weight set and nothing else changes |
| PointSources.NormalizedFrame | src/model/roadway_dispersion/point.java:220-248 | the lateral distance is non-negative; the receptor and source elevations are the receptor's and the point's z |
| PointSources.LiftedElevation | src/model/roadway_dispersion/point.java:289-297 | an elevation of exactly 0 becomes non-zero (0.001); any other is kept |
| PointSources.UpwindContributesNothing | src/model/roadway_dispersion/point.java:264-270 | a downwind distance below 0.3 m gives a concentration of exactly 0 |
| PointSources.NegligiblePrefactorIgnoresBessel | src/model/roadway_dispersion/point.java:309-312 | when abs(temp1) < 1e-200 the concentration is 0 whatever the Bessel routine returns |
| PointSources.PrefactorScales | src/model/roadway_dispersion/point.java:302-306 | temp1 is linear in the strength q when HUANG_1 * sigma and b * alpha * x are not zero |
| PointSources.DivisorsNonZero | src/model/roadway_dispersion/point.java:284-306 | beyond the 0.3 m tolerance those divisors are non-zero whenever sigma, b and alpha are |
| PointSources.ContributionScales | src/model/roadway_dispersion/point.java:264-316 | above the tolerance a source c times as strong gives c times the concentration while both prefactors clear the 1e-200 cutoff, and a zero strength gives 0 |
| PointSources.EvaluatedBranches | src/model/roadway_dispersion/point.java:309-316 | an unfolding of the final step, used by CalculateContribution's proof: 0 below the cutoff, temp1 times the Bessel value above it |
| PointSources.Point.constructor | src/model/roadway_dispersion/point.java:154-160 | a point at the origin with strength 0 and concentration 0 |
| PointSources.Point.At | src/model/roadway_dispersion/point.java:170-176 | a point at the given location and strength with concentration 0 |
| PointSources.Point.SetLocation | src/model/roadway_dispersion/point.java:107-110 | only the location changes |
| PointSources.Point.SetSourceStrength | src/model/roadway_dispersion/point.java:128-131 | only the strength changes |
| PointSources.Point.Normalize | src/model/roadway_dispersion/point.java:220-248 | the Huang frame is the normalised frame of the point; location, strength and concentration unchanged |
| PointSources.Point.CalculateContribution | src/model/roadway_dispersion/point.java:255-319 | the frame and the concentration are set from the formula; location and strength unchanged |
| SpacingConfiguration.SpacingSettings.constructor | src/model/roadway_dispersion/highway_point_spacing.java:239-242 | the static initializer installs the default spacing |
| SpacingConfiguration.SpacingSettings.SetDefaultSpacing | src/model/roadway_dispersion/highway_point_spacing.java:257-277 | four regions, the default tables in fresh arrays and 3 m overhangs |
| SpacingConfiguration.SpacingSettings.SetOverhangUp | src/model/roadway_dispersion/highway_point_spacing.java:156-159 | only the upwind overhang changes |
| SpacingConfiguration.SpacingSettings.SetOverhangDown | src/model/roadway_dispersion/highway_point_spacing.java:163-166 | only the downwind overhang changes |
| SpacingConfiguration.SpacingSettings.SetZones | src/model/roadway_dispersion/highway_point_spacing.java:172-183 | a fresh copy of the zones, and one more region than zones |
| SpacingConfiguration.SpacingSettings.SetFetchDensity | src/model/roadway_dispersion/highway_point_spacing.java:189-200 | a fresh copy of the fetch spacings, and one region per spacing |
| SpacingConfiguration.SpacingSettings.SetCrossDensity | src/model/roadway_dispersion/highway_point_spacing.java:206-217 | a fresh copy of the cross spacings, and one region per spacing |
| SpacingConfiguration.SpacingSettings.SetVerticalDensity | src/model/roadway_dispersion/highway_point_spacing.java:222-234 | a fresh copy of the vertical rows; the region count is kept |
| SpacingConfiguration.DefaultTables | src/model/roadway_dispersion/highway_point_spacing.java:257-277 | fresh arrays holding the default zones, spacings and vertical rows |
| SpacingConfiguration.CopyOf | src/model/roadway_dispersion/highway_point_spacing.java:172-183 | the element-by-element copy equals its source |
| SpacingConfiguration.SettersInAnyOrder | src/model/roadway_dispersion/highway_point_spacing.java:172-217 | matching zones and spacings give a consistent configuration whichever order the three setters run in |
| SpacingConfiguration.ConsistentIsIndexable | src/model/roadway_dispersion/highway_point_spacing.java:283-293 | a configuration the zone check would accept never sends the discretizer out of its tables |
| SpacingConfiguration.ShortFetchNotIndexable | src/model/roadway_dispersion/highway_point_spacing.java:189-200 | a fetch table shorter than the region count makes the table fill run out of bounds |
| SpacingConfiguration.DefaultSchemeSound | src/model/roadway_dispersion/highway_point_spacing.java:257-277 | the default configuration is consistent and has positive spacings |
| SpacingSpec.Mirrored | src/model/roadway_dispersion/highway_point_spacing.java:512-521 | a density table laid out on both sides has 2 n rows |
| SpacingSpec.LaidOut | src/model/roadway_dispersion/highway_point_spacing.java:452-522 | the table after find_end_points has 2 * num_regions rows |
| SpacingSpec.RawExtentsMirrored | src/model/roadway_dispersion/highway_point_spacing.java:466-486 | row 2n - 1 - r is the reflection of row r |
| SpacingSpec.RawExtentZones | src/model/roadway_dispersion/highway_point_spacing.java:466-477 | row n + i spans [previous zone, zones[i]] and row n - 1 - i spans [-zones[i], -previous zone] |
| SpacingSpec.RawExtentOutermost | src/model/roadway_dispersion/highway_point_spacing.java:480-486 | the outermost rows reach -1e12 and +1e12 |
| SpacingSpec.MirroredDensity | src/model/roadway_dispersion/highway_point_spacing.java:512-521 | both mirrored rows of region i get density i |
| SpacingSpec.ClipWithin | src/model/roadway_dispersion/highway_point_spacing.java:491-509 | a clipped value lies in [start.y, end.y] and values already there are kept |
| SpacingSpec.ClipCollapsesOutside | src/model/roadway_dispersion/highway_point_spacing.java:491-509 | a region wholly outside the link collapses to zero length |
| SpacingSpec.ClipOrdered | src/model/roadway_dispersion/highway_point_spacing.java:491-509 | clipping keeps each region's endpoints in order |
| SpacingSpec.LaidOutOnLink | src/model/roadway_dispersion/highway_point_spacing.java:452-522 | every endpoint of the laid-out table lies on the link |
| SpacingSpec.LaidOutPositive | src/model/roadway_dispersion/highway_point_spacing.java:512-521 | positive densities give every region positive fetch and cross spacings |
| SpacingSpec.Marked | src/model/roadway_dispersion/highway_point_spacing.java:760-788 | the first optimisation pass keeps the row count |
| SpacingSpec.Padding | src/model/roadway_dispersion/highway_point_spacing.java:792-812 | the blank rows left when fewer regions are kept than counted |
| SpacingSpec.LongRegions | src/model/roadway_dispersion/highway_point_spacing.java:781-788 | the regions at least 0.1 m long, all taken from the input |
| SpacingSpec.Retiled | src/model/roadway_dispersion/highway_point_spacing.java:760-778 | re-tiling keeps the row count |
| SpacingSpec.KeptMembers | src/model/roadway_dispersion/highway_point_spacing.java:792-812 | a region is kept exactly when it is in the table and not marked as dropped |
| SpacingSpec.KeptAppend | src/model/roadway_dispersion/highway_point_spacing.java:792-812 | the keep filter works row by row, in order |
| SpacingSpec.LongRegionsAppend | src/model/roadway_dispersion/highway_point_spacing.java:781-788 | the long-region count works row by row, in order |
| SpacingSpec.KeptNoMoreThanLong | src/model/roadway_dispersion/highway_point_spacing.java:781-812 | no more regions are kept than were counted as long |
| SpacingSpec.KeptPrefix | src/model/roadway_dispersion/highway_point_spacing.java:792-812 | keeping from a prefix keeps no more than keeping from the whole |
| SpacingSpec.RetiledPositive | src/model/roadway_dispersion/highway_point_spacing.java:760-778 | a positive spacing stays positive after re-tiling a region of positive length |
| SpacingSpec.RetiledTiles | src/model/roadway_dispersion/highway_point_spacing.java:760-778 | when length/spacing has a fractional part above 0.01, the new spacing is positive, at most the old one, and divides the region into max(ceil(length/spacing), 5) whole intervals |
| SpacingSpec.RetiledUnchanged | src/model/roadway_dispersion/highway_point_spacing.java:760-778 | otherwise the spacing is left as configured |
| SpacingSpec.KeptMarkedIsRetiledLongRegions | src/model/roadway_dispersion/highway_point_spacing.java:760-812 | marking then keeping gives exactly the long regions, in order, re-tiled |
| SpacingSpec.OptimizedIsRetiledLongRegions | src/model/roadway_dispersion/highway_point_spacing.java:752-816 | the optimised table is exactly the regions of length >= 0.1 m, in their original order, re-tiled, with extents and cross spacings unchanged |
| SpacingSpec.OptimizedRegionsUsable | src/model/roadway_dispersion/highway_point_spacing.java:752-816 | every region left is at least 0.1 m long and has a positive fetch spacing |
| SpacingSpec.OptimizedCrossPositive | src/model/roadway_dispersion/highway_point_spacing.java:752-816 | optimisation keeps each kept region's cross spacing positive |
| GridSpec.Column | src/model/roadway_dispersion/highway_point_spacing.java:700-710 | the innermost loop adds one sample per vertical position |
| GridSpec.StripLayout | src/model/roadway_dispersion/highway_point_spacing.java:614-691 | permute_points lays its fetch positions out as the fetch profile |
| GridSpec.Layouts | src/model/roadway_dispersion/highway_point_spacing.java:592-602 | one layout per strip |
| GridSpec.InteriorStrips | src/model/roadway_dispersion/highway_point_spacing.java:592-602 | one interior strip per region |
| GridSpec.BoundaryStrips | src/model/roadway_dispersion/highway_point_spacing.java:538-586 | there are regions + 1 boundary lines |
| GridSpec.BoundaryStripDefined | src/model/roadway_dispersion/highway_point_spacing.java:545-584 | a boundary line has one fetch position and the cross spacing of one of its regions |
| GridSpec.InteriorLayouts | src/model/roadway_dispersion/highway_point_spacing.java:592-602 | one layout per region |
| GridSpec.BoundaryLayouts | src/model/roadway_dispersion/highway_point_spacing.java:538-586 | one layout per boundary line |
| GridSpec.NormalPointsAppended | src/model/roadway_dispersion/highway_point_spacing.java:855-864 | the interior points then the boundary points make up the normal points |
| GridSpec.RestoredAll | src/model/roadway_dispersion/highway_point_spacing.java:824-846 | moving points back keeps their number |
| GridSpec.RestoredAllAppend | src/model/roadway_dispersion/highway_point_spacing.java:824-846 | points are moved back one by one |
| GridSpec.ColumnSnoc | src/model/roadway_dispersion/highway_point_spacing.java:700-710 | one more vertical position adds one sample |
| GridSpec.RowSnoc | src/model/roadway_dispersion/highway_point_spacing.java:698-711 | one more fetch position adds one column |
| GridSpec.GridSnoc | src/model/roadway_dispersion/highway_point_spacing.java:696-712 | one more cross position adds one row |
| GridSpec.GridsSnoc | src/model/roadway_dispersion/highway_point_spacing.java:592-602 | each permute_points call appends its grid after the earlier ones |
| GridSpec.RowLength | src/model/roadway_dispersion/highway_point_spacing.java:698-711 | a row holds |fetch| * |vertical| samples |
| GridSpec.RowAt | src/model/roadway_dispersion/highway_point_spacing.java:698-711 | sample j * |V| + k of a row stands at (c, F[j], V[k]) |
| GridSpec.GridLength | src/model/roadway_dispersion/highway_point_spacing.java:696-712 | permute_points adds exactly |cross| * |fetch| * |vertical| points |
| GridSpec.GridAt | src/model/roadway_dispersion/highway_point_spacing.java:696-712 | the grid is the Cartesian product, cross outermost and vertical innermost |
| GridSpec.RowStrengths | src/model/roadway_dispersion/highway_point_spacing.java:698-711 | every sample of a row carries the strip's strength |
| GridSpec.GridStrengths | src/model/roadway_dispersion/highway_point_spacing.java:696-712 | every sample of a grid carries the strip's strength |
| GridSpec.WideCrossIsCentreline | src/model/roadway_dispersion/highway_point_spacing.java:640-644 | a cross spacing wider than the road gives the single cross position 0.0 |
| GridSpec.CoincidentFetchIsStart | src/model/roadway_dispersion/highway_point_spacing.java:672-679 | fetch ends within 0.0001 of each other give the start alone |
| GridSpec.VerticalProfileAppend | src/model/roadway_dispersion/highway_point_spacing.java:625-636 | the vertical profile is built row by row, in order |
| GridSpec.VerticalProfileSnoc | src/model/roadway_dispersion/highway_point_spacing.java:625-636 | the last vertical row's heights come last |
| GridSpec.ZeroVerticalRowSkipped | src/model/roadway_dispersion/highway_point_spacing.java:629 | vertical rows with spacing 0 contribute no heights, wherever they stand |
| GridSpec.CrossProfileNonEmpty | src/model/roadway_dispersion/highway_point_spacing.java:640-665 | with a positive spacing and non-negative overhangs the cross profile is never empty |
| GridSpec.InteriorRun | src/model/roadway_dispersion/highway_point_spacing.java:599-600 | k - 1 interior positions for k fetch spacings |
| GridSpec.InteriorOfSingleInterval | src/model/roadway_dispersion/highway_point_spacing.java:599-600 | a region of one spacing has no interior points |
| GridSpec.InteriorOfTwoIntervals | src/model/roadway_dispersion/highway_point_spacing.java:599-600 | a region of two spacings has the midpoint as its only interior position |
| GridSpec.InteriorOfManyIntervals | src/model/roadway_dispersion/highway_point_spacing.java:599-600 | for k >= 3 the interior run has no residual |
| GridSpec.ManyIntervalsArithmetic | src/model/roadway_dispersion/point_vector.java:84-96 | the interior of k >= 3 spacings splits into k - 2 intervals and starts one spacing in |
| GridSpec.InteriorRunSteps | src/model/roadway_dispersion/point_vector.java:93-99 | the interior run is k - 1 values from lo + fs, fs apart |
| GridSpec.InteriorFetchPositions | src/model/roadway_dispersion/highway_point_spacing.java:599-600 | a region of k >= 1 spacings fs from a has interior fetch positions exactly a + i * fs for i = 1 .. k - 1 |
| GridSpec.InteriorRunInside | src/model/roadway_dispersion/highway_point_spacing.java:599-600 | the interior positions lie strictly inside the region |
| GridSpec.PointStrengthValue | src/model/roadway_dispersion/highway_point_spacing.java:688-691 | each point's strength is fetch_spacing * line_strength / (|vertical| * |cross|) |
| GridSpec.FetchPositionTotal | src/model/roadway_dispersion/highway_point_spacing.java:688-691 | the strengths at one fetch position add up to fetch_spacing * line_strength |
| GridSpec.RowTotal | src/model/roadway_dispersion/highway_point_spacing.java:698-711 | a row's strength is |F| * |V| times the point strength |
| GridSpec.GridTotal | src/model/roadway_dispersion/highway_point_spacing.java:696-712 | a grid's strength is |C| * |F| * |V| times the point strength |
| GridSpec.LayoutTotal | src/model/roadway_dispersion/highway_point_spacing.java:614-713 | the samples of one layout carry its charge |
| GridSpec.GridsTotal | src/model/roadway_dispersion/highway_point_spacing.java:592-602 | the points of several layouts carry their charges added up |
| GridSpec.SharedCharge | src/model/roadway_dispersion/highway_point_spacing.java:688-712 | a strip's points carry fetch_spacing * line_strength per fetch position |
| GridSpec.StripCharge | src/model/roadway_dispersion/highway_point_spacing.java:614-713 | one permute_points call adds the strip's line-source mass times the line strength |
| GridSpec.InteriorMass | src/model/roadway_dispersion/highway_point_spacing.java:599-600 | an interior strip stands for its region's length less one fetch spacing |
| GridSpec.BoundaryFetchSum | src/model/roadway_dispersion/highway_point_spacing.java:545-584 | the boundary lines use half the end regions' spacings and the average of adjoining spacings, so their spacings add up to the regions' spacings |
| GridSpec.LineCharge | src/model/roadway_dispersion/highway_point_spacing.java:545-584 | a boundary line carries its fetch spacing times the line strength |
| GridSpec.InteriorChargeAt | src/model/roadway_dispersion/highway_point_spacing.java:592-602 | interior strip i carries (length - fetch spacing) times the line strength |
| GridSpec.InteriorNetCharge | src/model/roadway_dispersion/highway_point_spacing.java:592-602 | interior strip i carries its net length times the line strength |
| GridSpec.InteriorCharges | src/model/roadway_dispersion/highway_point_spacing.java:592-602 | all interior strips carry the sum of net lengths times the line strength |
| GridSpec.BoundaryFetchAt | src/model/roadway_dispersion/highway_point_spacing.java:545-584 | boundary line i has one fetch position, at its own spacing |
| GridSpec.BoundaryCrossPositive | src/model/roadway_dispersion/highway_point_spacing.java:545-584 | a boundary line takes the positive cross spacing of one of its regions |
| GridSpec.BoundaryNetCharge | src/model/roadway_dispersion/highway_point_spacing.java:538-586 | boundary line i carries its fetch spacing times the line strength |
| GridSpec.BoundaryCharges | src/model/roadway_dispersion/highway_point_spacing.java:538-586 | all boundary lines carry the sum of region fetch spacings times the line strength |
| GridSpec.RegionCharges | src/model/roadway_dispersion/highway_point_spacing.java:538-602 | the interior and boundary charges of a tiled table |
| GridSpec.ChargedPoints | src/model/roadway_dispersion/highway_point_spacing.java:538-602 | interior plus boundary points carry the total length times the line strength |
| GridSpec.MassConserved | src/model/roadway_dispersion/highway_point_spacing.java:538-713 | the point strengths of a link add up to its total region length times the line strength |
| GridSpec.RestoredTotal | src/model/roadway_dispersion/highway_point_spacing.java:824-846 | moving points back keeps every strength |
| GridSpec.RestoredMass | src/model/roadway_dispersion/highway_point_spacing.java:824-846 | the returned points still conserve the line source's mass |
| HighwayPointSpacing.Normalization | src/model/roadway_dispersion/highway_point_spacing.java:421-444 | the link starts at x = 0, the receptor lies on y = 0, and elevations are kept |
| HighwayPointSpacing.RestorationRoundTrip | src/model/roadway_dispersion/highway_point_spacing.java:421-444 | given inverse rotations, restoring the normalised frame gives back the link, the receptor and the wind |
| HighwayPointSpacing.Rows | src/model/roadway_dispersion/highway_point_spacing.java:452-522 | three parallel tables read as one region per row |
| HighwayPointSpacing.LayOutZones | src/model/roadway_dispersion/highway_point_spacing.java:468-486 | after the zone loop and the outermost rows, every row holds its mirrored raw extent |
| HighwayPointSpacing.ClipTable | src/model/roadway_dispersion/highway_point_spacing.java:491-509 | every entry is clipped to the link |
| HighwayPointSpacing.FillSpacings | src/model/roadway_dispersion/highway_point_spacing.java:512-521 | both tables hold their densities mirrored |
| HighwayPointSpacing.LinkRegions | src/model/roadway_dispersion/highway_point_spacing.java:452-816 | the optimised table has one row per long region |
| HighwayPointSpacing.Discretized | src/model/roadway_dispersion/highway_point_spacing.java:855-875 | a failed discretization is an index fault |
| HighwayPointSpacing.PositiveSpacingsGenerate | src/model/roadway_dispersion/highway_point_spacing.java:592-713 | positive densities are enough for every profile loop to finish |
| HighwayPointSpacing.DiscretizedFails | src/model/roadway_dispersion/highway_point_spacing.java:855-875 | discretization fails exactly when the configuration is not indexable or no region is 0.1 m long |
| HighwayPointSpacing.DiscretizedMass | src/model/roadway_dispersion/highway_point_spacing.java:855-875 | the returned points of a tiled table carry the total region length times the line strength |
| HighwayPointSpacing.Discretizer.constructor | src/model/roadway_dispersion/highway_point_spacing.java:341-351 | copies of the link ends and the receptor, the wind vector, and no tables or points yet |
| HighwayPointSpacing.Discretizer.RotateCoordinateSystem | src/model/roadway_dispersion/highway_point_spacing.java:421-444 | the geometry becomes the normalised frame |
| HighwayPointSpacing.Discretizer.FindEndPoints | src/model/roadway_dispersion/highway_point_spacing.java:452-522 | normalises, then builds fresh tables equal to the laid-out table, or fails with an index fault exactly when the configuration is not indexable |
| HighwayPointSpacing.Discretizer.Optimize | src/model/roadway_dispersion/highway_point_spacing.java:752-816 | the tables become the optimised table |
| HighwayPointSpacing.Discretizer.Permute | src/model/roadway_dispersion/highway_point_spacing.java:614-713 | appends exactly the strip's grid to the points |
| HighwayPointSpacing.Discretizer.GenerateInterior | src/model/roadway_dispersion/highway_point_spacing.java:592-602 | appends the interior grids of every region, in order |
| HighwayPointSpacing.Discretizer.GenerateBoundary | src/model/roadway_dispersion/highway_point_spacing.java:538-586 | appends the boundary grids, or fails with an index fault and appends nothing when no region is left |
| HighwayPointSpacing.Discretizer.BoundaryLine | src/model/roadway_dispersion/highway_point_spacing.java:545-584 | position and spacings of boundary line i |
| HighwayPointSpacing.Discretizer.ReRotateCoordinateSystem | src/model/roadway_dispersion/highway_point_spacing.java:824-846 | the geometry and every point are moved back to the original frame |
| HighwayPointSpacing.Discretizer.RestorePoints | src/model/roadway_dispersion/highway_point_spacing.java:827-845 | every point is translated and rotated back |
| HighwayPointSpacing.Discretizer.ReturnPointArray | src/model/roadway_dispersion/highway_point_spacing.java:855-875 | one distinct fresh point per generated sample, in order, the points dropped afterwards; a second call is a null-reference fault |
| HighwayPointSpacing.Discretizer.Release | src/model/roadway_dispersion/highway_point_spacing.java:860-874 | re-rotates, copies the points into a fresh array and drops them |
| HighwayPointSpacing.Discretizer.Generate | src/model/roadway_dispersion/highway_point_spacing.java:860-863 | appends exactly the normal points of the optimised table, or fails with an index fault exactly when no region is usable |
| HighwayPointSpacing.Discretizer.Fill | src/model/roadway_dispersion/highway_point_spacing.java:861-863 | optimise, interior, boundary: the normal points appended |
| HighwayPointSpacing.Discretizer.AppendGrid | src/model/roadway_dispersion/highway_point_spacing.java:696-712 | the triple loop appends the Cartesian-product grid |
| HighwayPointSpacing.StripLayoutOf | src/model/roadway_dispersion/highway_point_spacing.java:614-691 | the profiles and strength permute_points computes are the strip's layout |
| HighwayPointSpacing.VerticalPoints | src/model/roadway_dispersion/highway_point_spacing.java:625-636 | the vertical profile, rows of zero spacing skipped |
| HighwayPointSpacing.CrossPoints | src/model/roadway_dispersion/highway_point_spacing.java:640-665 | the cross profile: the centreline, or a run with the overhang on the wind's side |
| HighwayPointSpacing.FetchPoints | src/model/roadway_dispersion/highway_point_spacing.java:672-681 | the fetch profile: a run between distinct ends, the start alone otherwise |
| HighwayPointSpacing.MakePoints | src/model/roadway_dispersion/highway_point_spacing.java:866-869 | one distinct fresh point object per sample, in order |
| HighwayPointSpacing.MarkRegions | src/model/roadway_dispersion/highway_point_spacing.java:760-788 | every spacing re-tiled and short regions marked, and the count of long regions |
| HighwayPointSpacing.MarkRegion | src/model/roadway_dispersion/highway_point_spacing.java:760-788 | one region's new spacing, and whether it is at least 0.1 m long |
| HighwayPointSpacing.Retiled | src/model/roadway_dispersion/highway_point_spacing.java:760-778 | the re-tiled spacing of one region |
| HighwayPointSpacing.LongStep | src/model/roadway_dispersion/highway_point_spacing.java:781-788 | the long-region count grows by one exactly for a long row |
| HighwayPointSpacing.MarkedRows | src/model/roadway_dispersion/highway_point_spacing.java:760-788 | re-marking the spacings marks the regions |
| HighwayPointSpacing.OptimizedFrom | src/model/roadway_dispersion/highway_point_spacing.java:792-812 | the kept rows padded to the long-region count are the optimised table |
| HighwayPointSpacing.KeptStep | src/model/roadway_dispersion/highway_point_spacing.java:792-812 | one more row considered by the keep filter |
| HighwayPointSpacing.RowsOf | src/model/roadway_dispersion/highway_point_spacing.java:792-812 | tables holding the kept rows then blank rows read as the kept rows padded |
| HighwayPointSpacing.CopyKept | src/model/roadway_dispersion/highway_point_spacing.java:792-812 | new tables sized to the long-region count hold the kept rows in order, then blank rows |
| HighwayLinks.LinkConcentration | src/model/roadway_dispersion/link.java:49-69 | a link's concentration exists exactly when its points do, and fails with their fault |
| HighwayLinks.ConcentrationsAppend | src/model/roadway_dispersion/link.java:60-68 | superposition is additive over runs of points |
| HighwayLinks.UpwindPointsContributeNothing | src/model/roadway_dispersion/point.java:264-270 | points all upwind or nearer than 0.3 m give the link nothing |
| HighwayLinks.LinkConcentrationFails | src/model/roadway_dispersion/highway_link.java:207-227 | the calculation fails exactly when the dispersion record is missing, the configuration is not indexable, or no region is 0.1 m long |
| HighwayLinks.RunDiscretizer | src/model/roadway_dispersion/highway_link.java:217-225 | the discretizer run on the link's own geometry, strength, the receptor and the wind returns the link's points |
| HighwayLinks.SumContributions | src/model/roadway_dispersion/link.java:56-68 | the total is reset and then becomes the sum of every point's contribution; every point is evaluated |
| HighwayLinks.LinkEvaluation | src/model/roadway_dispersion/link.java:49-69 | the points and the total of one calculation, or its fault |
| HighwayLinks.HighwayLink.constructor | src/model/roadway_dispersion/highway_link.java:174-198 | the default link clone starts from: no geometry, strength, points or total |
| HighwayLinks.HighwayLink.WithLineStrength | src/model/roadway_dispersion/highway_link.java:65-97 | the line-strength constructors leave the flow rate and emission factor at 0 and measure the link |
| HighwayLinks.HighwayLink.WithTraffic | src/model/roadway_dispersion/highway_link.java:113-160 | line strength = traffic flow rate * vehicle emission factor |
| HighwayLinks.HighwayLink.DetermineLinkGeometry | src/model/roadway_dispersion/link.java:221-232 | the length and angle agree with the end points |
| HighwayLinks.HighwayLink.Clone | src/model/roadway_dispersion/highway_link.java:174-198 | a fresh link with the same name, ends, width, strength, flow rate and emission factor, and no points or total |
| HighwayLinks.HighwayLink.SetName | src/model/roadway_dispersion/receptor.java:109-110 | only the name changes (the `naming.setName` call that renames a receptor's copy) |
| HighwayLinks.HighwayLink.SetStartLocation | src/model/roadway_dispersion/link.java:310-313 | only the start changes, to the coordinate's value |
| HighwayLinks.HighwayLink.SetEndLocation | src/model/roadway_dispersion/link.java:328-331 | only the end changes, to the coordinate's value |
| HighwayLinks.HighwayLink.SetWidth | src/model/roadway_dispersion/link.java:346-349 | only the width changes |
| HighwayLinks.HighwayLink.SetLineStrength | src/model/roadway_dispersion/highway_link.java:267-270 | only the line strength changes |
| HighwayLinks.HighwayLink.SetTrafficFlowrate | src/model/roadway_dispersion/highway_link.java:279-282 | only the flow rate changes |
| HighwayLinks.HighwayLink.SetVehicleEF | src/model/roadway_dispersion/highway_link.java:289-292 | only the emission factor changes |
| HighwayLinks.HighwayLink.SetPointArray | src/model/roadway_dispersion/link.java:275-278 | the reference is kept, without a copy |
| HighwayLinks.HighwayLink.ClearLinkConcentration | src/model/roadway_dispersion/link.java:38-42 | total 0 and an empty point array |
| HighwayLinks.HighwayLink.ClearPoints | src/model/roadway_dispersion/link.java:354-357 | the point array is dropped; the total is kept |
| HighwayLinks.HighwayLink.CreatePointArray | src/model/roadway_dispersion/highway_link.java:207-227 | the stored array holds one distinct fresh point per sample of the link's points, or the fault with the array unchanged |
| HighwayLinks.HighwayLink.CalculateLinkConcentration | src/model/roadway_dispersion/link.java:49-69 | the total is the link's concentration (no accumulation across calls) and every point is evaluated, or the fault with nothing changed |
| HighwayLinks.HighwayLink.PointArrayConcentrations | src/model/roadway_dispersion/link.java:96-112 | one row [x, y, z, concentration] per point, in array order; a cleared array is a null-reference fault |
| HighwayLinks.StoredLocationIsACopy | src/model/roadway_dispersion/link.java:310-313 | changing the coordinate object after setStart_location leaves the link where it was |
| Receptors.OwnedNameRoundTrip | src/model/roadway_dispersion/receptor.java:140-148 | the original link name can be read back from the owned name |
| Receptors.OwnedNamesDistinct | src/model/roadway_dispersion/receptor.java:140-148 | distinct link names give distinct owned names |
| Receptors.SourcesOf | src/model/roadway_dispersion/receptor.java:51-69 | the geometry and strength of each link, in order |
| Receptors.Totals | src/model/roadway_dispersion/receptor.java:51-69 | when the run completes, total i is link i's concentration and is not negative |
| Receptors.TotalsSucceed | src/model/roadway_dispersion/receptor.java:276-299 | the run completes exactly when every link's result is a non-negative concentration |
| Receptors.TotalsFirstFault | src/model/roadway_dispersion/receptor.java:51-69 | a failed run reports the first unusable link, and every link before it was usable |
| Receptors.TotalsKeepFault | src/model/roadway_dispersion/receptor.java:51-69 | once a prefix fails, the run fails the same way |
| Receptors.Zeros | src/model/roadway_dispersion/receptor.java:158-162 | Java's zero-filled array: n zeros summing to 0 |
| Receptors.SumUpdate | src/model/roadway_dispersion/receptor.java:296-298 | adding x to one slot adds x to the sum |
| Receptors.NoRepeatsAt | src/model/roadway_dispersion/receptor.java:137-149 | a link without repeats appears at one index only |
| Receptors.Receptor.constructor | src/model/roadway_dispersion/receptor.java:250-257 | no links, but a one-slot zero concentration array and a zero total |
| Receptors.Receptor.SetLocation | src/model/roadway_dispersion/receptor.java:198-201 | the location becomes the coordinate's value |
| Receptors.Receptor.ClearLinks | src/model/roadway_dispersion/receptor.java:29-32 | the owned links are forgotten; the recorded names are kept |
| Receptors.Receptor.AddConcentration | src/model/roadway_dispersion/receptor.java:276-299 | an index outside [0, known_links) or a negative value is fatal and changes nothing; otherwise x is added to the slot and to the total, nothing else changes, and total == sum of slots is preserved |
| Receptors.Receptor.AppendOwnedCopy | src/model/roadway_dispersion/receptor.java:97-124 | one fresh renamed copy appended and its original name recorded |
| Receptors.Receptor.ResetConcentrations | src/model/roadway_dispersion/receptor.java:158-162 | a zero total and a zero slot per owned link |
| Receptors.Receptor.AddLinkCopy | src/model/roadway_dispersion/receptor.java:97-124 | one renamed copy appended, earlier links kept, then the slots reset to zeros of the new length |
| Receptors.Receptor.AddLinkCopies | src/model/roadway_dispersion/receptor.java:132-163 | one fresh renamed copy per input link, in input order, after the links already owned; the original names recorded at the same indices; the slots reset to zeros |
| Receptors.Receptor.AppendCopyOf | src/model/roadway_dispersion/receptor.java:137-149 | one pass of the copy loop |
| Receptors.Receptor.VisitedStart | src/model/roadway_dispersion/receptor.java:51-55 | before the loop no link is visited |
| Receptors.Receptor.CalculateConcentration | src/model/roadway_dispersion/receptor.java:40-70 | visits the links in index order; from zeroed slots, slot i ends as link i's total, the total as their sum and each link's points cleared; or the first fault |
| Receptors.Receptor.VisitLink | src/model/roadway_dispersion/receptor.java:57-68 | one pass of the loop extends the totals or stops with the run's fault |
| Receptors.Receptor.UpdateLink | src/model/roadway_dispersion/receptor.java:60-62 | the link's calculation and the recording of its total |
| Receptors.Receptor.RecordLink | src/model/roadway_dispersion/receptor.java:62-68 | add_concentration of the link's total and clear_points |
| Receptors.EvaluateLink | src/model/roadway_dispersion/receptor.java:60 | the link's calculation changes only that link |
| Receptors.FilledFromZero | src/model/roadway_dispersion/receptor.java:51-69 | slots filled from zero with a total for every slot hold exactly the totals |
| Receptors.TotalsAdvance | src/model/roadway_dispersion/receptor.java:57-68 | one more result extends the totals or ends them with its fault |
| SiteDescriptions.UnitFactorRelations | src/model/roadway_dispersion/site_description.java:603-630 | code 3 is the ppm factor times 1e6, code 4 is 1e6, an unknown code is 1.0 like code 1, and a positive ppm factor gives a positive factor |
| SiteDescriptions.ReadyLinks | src/model/roadway_dispersion/site_description.java:219-236 | a ready receptor's own links and the site links all discretize |
| SiteDescriptions.AllTotalsAt | src/model/roadway_dispersion/site_description.java:219-232 | entry i of the sweep is receptor i's totals |
| SiteDescriptions.Sweep | src/model/roadway_dispersion/site_description.java:219-232 | the sweep completes exactly when every receptor completes, with their totals in order |
| SiteDescriptions.SweepFault | src/model/roadway_dispersion/site_description.java:219-232 | the sweep fails with the first failing receptor's fault |
| SiteDescriptions.SweepLengths | src/model/roadway_dispersion/site_description.java:219-232 | in a completed sweep receptor i has one total per owned link and one per site link |
| SiteDescriptions.MatrixRowFull | src/model/roadway_dispersion/site_description.java:419-428 | a row whose slots fill the width is [total] + slots |
| SiteDescriptions.SimulationCases | src/model/roadway_dispersion/site_description.java:210-237 | the sweep's fault; an index fault if a receptor already owned links; otherwise one row [sum of totals] + totals per receptor |
| SiteDescriptions.TabulatedSweep | src/model/roadway_dispersion/site_description.java:404-431 | the matrix of a completed sweep exists exactly when every receptor has at most one slot per site link, and row j is then its matrix row |
| SiteDescriptions.SiteTotals | src/model/roadway_dispersion/site_description.java:219-232 | a receptor without owned links completes exactly when every site link is usable, with one non-negative total per site link |
| SiteDescriptions.RerunFails | src/model/roadway_dispersion/site_description.java:210-237 | when every receptor already ends with copies of the non-empty site links, the simulation fails, with the index fault once its sweep completes |
| SiteDescriptions.SimulationSucceeds | src/model/roadway_dispersion/site_description.java:210-237 | the simulation completes exactly when no receptor owned links and every site link is usable at every receptor |
| SiteDescriptions.SimulationEntries | src/model/roadway_dispersion/site_description.java:404-431 | a completed matrix has receptors rows of links + 1 entries; column 0 is the sum of the rest, and column k + 1 is site link k's concentration at the receptor |
| SiteDescriptions.OwnedLinksHold | src/model/roadway_dispersion/site_description.java:219-232 | every link of every receptor is among the owned links |
| SiteDescriptions.InputsOf | src/model/roadway_dispersion/site_description.java:219-232 | each receptor's owned sources and location, in order |
| SiteDescriptions.ReceptorsAdded | src/model/roadway_dispersion/site_description.java:483-497 | the rows added before the first short row or missing name |
| SiteDescriptions.SourcesPointwise | src/model/roadway_dispersion/receptor.java:137-149 | links with the given sources one by one have those sources |
| SiteDescriptions.CopiesSources | src/model/roadway_dispersion/receptor.java:137-149 | owned links then copies carry the owned sources then the copied ones |
| SiteDescriptions.GiveCopies | src/model/roadway_dispersion/site_description.java:226 | addLinkCopy(links) keeps the owned links and appends copies with the site links' sources |
| SiteDescriptions.PrepareReceptor | src/model/roadway_dispersion/site_description.java:226 | afterwards the receptor's sources are its owned sources followed by the site sources |
| SiteDescriptions.SimulateReceptor | src/model/roadway_dispersion/site_description.java:222-230 | a receptor's slots become its totals and its total their sum, or the fault |
| SiteDescriptions.SweepReceptors | src/model/roadway_dispersion/site_description.java:219-232 | every receptor in order; the sweep's fault, or each receptor's owned links then copies, slots and total; every receptor stays valid |
| SiteDescriptions.SweepPass | src/model/roadway_dispersion/site_description.java:222-230 | one receptor's pass: its totals or fault, the receptors before and after it unchanged |
| SiteDescriptions.CalculateFresh | src/model/roadway_dispersion/site_description.java:230 | calculate_concentration from zeroed slots leaves the totals and their sum |
| SiteDescriptions.RowFrom | src/model/roadway_dispersion/site_description.java:404-431 | the first n entries of a matrix row |
| SiteDescriptions.RowHoldsMatrixRow | src/model/roadway_dispersion/site_description.java:419-428 | a row holding total, slots and zeros is the matrix row |
| SiteDescriptions.FillRow | src/model/roadway_dispersion/site_description.java:419-428 | column 0 the total, column j + 1 slot j, other rows untouched; an index fault exactly when the slots do not fit |
| SiteDescriptions.Site.ValidReceptors | src/model/roadway_dispersion/site_description.java:195-198 | a valid site's receptors are distinct and each is valid |
| SiteDescriptions.Site.InputsAt | src/model/roadway_dispersion/site_description.java:219-232 | receptor i's sweep input is its owned links' sources and its location |
| SiteDescriptions.Site.RowOf | src/model/roadway_dispersion/site_description.java:404-431 | row i of the stored matrix |
| SiteDescriptions.Site.constructor | src/model/roadway_dispersion/site_description.java:104-111 | no receptors or links, an all-zero dispersion record, default temperature and pressure, SF6 |
| SiteDescriptions.Site.ClearLinks | src/model/roadway_dispersion/site_description.java:116-119 | no links |
| SiteDescriptions.Site.ClearReceptors | src/model/roadway_dispersion/site_description.java:124-127 | no receptors |
| SiteDescriptions.Site.ClearAll | src/model/roadway_dispersion/site_description.java:133-139 | no links, no receptors, no matrix and no dispersion record |
| SiteDescriptions.Site.AddLink | src/model/roadway_dispersion/site_description.java:144-147 | the link appended |
| SiteDescriptions.Site.AddReceptor | src/model/roadway_dispersion/site_description.java:195-198 | the receptor appended |
| SiteDescriptions.Site.SetDispersion | src/model/roadway_dispersion/site_description.java:243-246 | the record every later calculation uses |
| SiteDescriptions.Site.SetDispersionFromWind | src/model/roadway_dispersion/site_description.java:361-387 | p = 0.25, n = 0.81, b = 0.28, c = 3.0, d = 0.32, e = 0.78, the converted wind angle and the wind profile's a |
| SiteDescriptions.Site.SetTemperature | src/model/roadway_dispersion/site_description.java:540-543 | the temperature set |
| SiteDescriptions.Site.SetPressure | src/model/roadway_dispersion/site_description.java:524-527 | the pressure set |
| SiteDescriptions.Site.SetPollutant | src/model/roadway_dispersion/site_description.java:557-560 | the pollutant set |
| SiteDescriptions.Site.AddReceptors | src/model/roadway_dispersion/site_description.java:483-497 | one fresh receptor per row, in order, at the row's (x, y, z) and named names[i]; a short row or a missing name stops with an index fault, keeping the receptors added before it |
| SiteDescriptions.Site.AppendNewReceptor | src/model/roadway_dispersion/site_description.java:492-495 | one new receptor appended |
| SiteDescriptions.Site.SimulateReceptors | src/model/roadway_dispersion/site_description.java:219-232 | the receptor loop: the sweep's fault, or each receptor holding its owned links then copies of the site links, its slots the totals and its total their sum; the site stays valid |
| SiteDescriptions.Site.RunSimulation | src/model/roadway_dispersion/site_description.java:210-237 | receptors in order, each given copies of the site links and then calculated, and the matrix built: the matrix rows of the simulation, or its fault; the site stays valid and, once every receptor has its totals, each holds its owned links then the copies, with slots and total set |
| SiteDescriptions.Site.CreateConcMatrix | src/model/roadway_dispersion/site_description.java:404-431 | a fresh receptors x (links + 1) matrix whose row i is [total] + slots padded with zeros; an index fault exactly when some receptor has more slots than links |
| SiteDescriptions.Site.GetConcMatrix | src/model/roadway_dispersion/site_description.java:590-649 | a fresh receptors x (links + 1) matrix of stored entries times the unit factor; a missing or too small matrix is a fault |

## Left out

- The GUI (`src/gui`): Swing widgets, file choosers, persistence and the background thread are user interface, I/O and concurrency.
- Floating point: doubles are mathematical reals. Rounding, overflow, infinities and NaN are not modelled. A division by zero is the value of the caller-supplied `quotientByZero`.
- cos, sin, atan2, exp, pow, sqrt and the Bessel routine are not interpreted. The caller supplies them in `Numerics.Transcendentals`, and a property that needs a range fact (atan2 in [-pi, pi], rotations that invert) states it in `requires`. So `find_sigma`, `coordinate.norm`, the Huang formula's `temp1` and `temp2`, and the value of `horizontal_angle` are stated only up to those routines.
- The unit conversion, the meteorological angle conversion and the wind profile's `a` come from helpers that are not part of this model. They are parameters: `toPpm`, `metToGeometric` and `windProfileA`.
- The naming utility that is not part of this model: names are supplied by the caller. `HighwayLinks.HighwayLink.WithLineStrength` and `WithTraffic` therefore stand for both the default-name and the named constructors.
- The error handler that is not part of this model: each call to it is a `Halted`/`Err` outcome. In the `add_points` overloads the handler lets execution go on, so the call is a warning value and the values the code computes are still appended: a spacing wider than the range gives the midpoint, a reversed LINEAR range a descending run, and a reversed range with a negative spacing a run of its own.
- `PointVectors.PointVector.AddLinear`: for a count of 1 the appended value is `lower + 0 * ((upper - lower) / 0)`. In IEEE arithmetic that is NaN; over the reals, with the division by zero left to `quotientByZero`, it is `lower`.
- Printing and debug code: `print_link_to_file`, `print_points`, the `toString` methods and the `main` drivers.
- `link.getCorners`, `coordinate.norm` and `dispersion.wind_speed`/`find_nuetral_a` are not modelled; nothing in the core calls them on the path modelled here.
- `validate_zones` is private and never called. Its condition is the predicate `SpacingSpec.Consistent`, and `SpacingConfiguration.ConsistentIsIndexable` states what it would guarantee.
- `add_links(Vector)` and `add_receptors(Vector)`: their untyped vector-of-vectors input, with its casts, has no counterpart here. `SiteDescriptions.Site.AddLink` and `SiteDescriptions.Site.AddReceptors` cover the typed paths they delegate to.
- Static shared state (the receptor location and dispersion record shared by links and points, and the static spacing configuration) is passed as explicit parameters, the `Engine` and `Dispersion` values, not modelled as globals.
- `link` and `highway_link` are one class, `HighwayLinks.HighwayLink`, because `highway_link` is the only kind of link.
- A link, point or receptor keeps its coordinates as values (`Vec3`), since every setter and constructor stores a copy. The `Coordinates.Coordinate` class models the in-place operations and the independence of copies.
- `HighwayPointSpacing.Discretized`: it returns the points as values. The point objects, and the sharing between the discretizer's vector and the returned array, are modelled only by `ReturnPointArray` and `MakePoints`.
- `SiteDescriptions.Site.RunSimulation`: it requires that every link discretizes (`SweepReady`). A configuration whose zero spacing makes a `point_vector` loop run forever is excluded rather than modelled. It also requires the site invariant `Valid`, whose receptors are distinct objects: `add_receptor` accepts the same receptor twice, and such a receptor would take the site links' copies twice and overflow the matrix with an index fault; that case is not modelled.
- `HighwayLinks.HighwayLink.CreatePointArray`: it requires that the link discretizes (`Generating`), for the same reason.
- `SiteDescriptions.Site.GetConcMatrix`: the ppm factor is whatever `toPpm` returns. Its positivity is assumed only in `UnitFactorRelations`.
