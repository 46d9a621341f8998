# Cubic Chunks custom terrain: field algebra and terrain pipeline

This project models two pieces of the Cubic Chunks custom terrain generator in Dafny.

1. **The `IBuilder` field algebra** (`fields.dfy`, `regions.dfy`).
   - A field is a total function from an integer block coordinate `(x, y, z)` to a density. It is modelled as `(int, int, int) -> real`.
   - Every combinator returns a new field that closes over its operands:
     - arithmetic with a field or with a constant;
     - the predicate-guarded forms `addIf`, `subIf`, `mulIf`, `divIf`, `applyIf`, `clampIf`;
     - `clamp`, `apply`;
     - `lerp`, where the receiver is an unclamped selector.
   - `regions.dfy` models the streaming side of `IBuilder`:
     - the entry records;
     - the enumeration of the block box between two corners;
     - the exact size hint that the plain stream and the scaled stream report.
2. **`CustomTerrainGenerator`** (`terrain.dfy`).
   - The constructor's composition of the final density field.
   - The bounded 2D height perturbation `randomHeight2d`.
   - What `generate` does for one cube: it sets the chunk context, streams the cube's block range with stride `(4, 8, 4)`, and writes the result.
   - The block choice `getBlock`. It maps a density sample, its vertical gradient, the height `y` and the biome to air, water, stone, or the biome's top or filler block.

The noise fields, the biome source's height/volatility/biome lookups, and the interpolating iterator behind `scaledStream` are not part of this model. They appear as function parameters: `Field`, `BiomeSource` and `Interpolator`.

Two modelling choices follow the code closely:
- Below the biome height the volatility is divided by 4 (`CustomTerrainGenerator.java:104`), so `TerrainDensity` divides by 4 there and by 1 elsewhere.
- The scan order of a stream comes from `BlockPos.getAllInBox`; no contract here mentions order.

## Model

| member | source | states |
|---|---|---|
| Fields.PredicatesComplementary | src/main/java/cubicchunks/worldgen/generator/custom/builder/IBuilder.java:51-54 | For every value, exactly one of `NEGATIVE`/`NOT_NEGATIVE` holds and exactly one of `POSITIVE`/`NOT_POSITIVE` holds; a negative value is not positive, and a positive one is not negative |
| Fields.Quot | src/main/java/cubicchunks/worldgen/generator/custom/builder/IBuilder.java:110-116 | Dividing by a nonzero divisor gives the quotient: the result times the divisor is the dividend |
| Fields.ClampValue | src/main/java/cubicchunks/worldgen/generator/custom/builder/IBuilder.java:118-120 | The clamp of a value is the value, `min` or `max`; it lies in `[min, max]` when `min <= max`; an in-range value is returned unchanged; a value below `min` becomes `min`, and a value not below `min` but above `max` becomes `max` |
| Fields.FieldArithmeticPointwise | src/main/java/cubicchunks/worldgen/generator/custom/builder/IBuilder.java:86-112 | `add`/`sub`/`mul` of two fields combine the two operands' values at the same point; `div` is the quotient wherever the divisor field is nonzero |
| Fields.ConstFormsAgreeWithFieldForms | src/main/java/cubicchunks/worldgen/generator/custom/builder/IBuilder.java:90-116 | Each constant form `add(c)`/`sub(c)`/`mul(c)`/`div(c)`, built through `apply`, agrees at every point with the field form applied to the constant field `c` |
| Fields.InverseOperations | src/main/java/cubicchunks/worldgen/generator/custom/builder/IBuilder.java:86-112 | `sub(b)` undoes `add(b)` at every point; `div(b)` undoes `mul(b)` wherever `b` is nonzero |
| Fields.ConditionalFrame | src/main/java/cubicchunks/worldgen/generator/custom/builder/IBuilder.java:126-197 | Where the predicate rejects the receiver's own value, all ten conditional forms (field and constant `addIf`/`subIf`/`mulIf`/`divIf`, `applyIf`, `clampIf`) return exactly that value, whatever the operand |
| Fields.ConditionalAppliesOnce | src/main/java/cubicchunks/worldgen/generator/custom/builder/IBuilder.java:126-197 | Where the predicate accepts the receiver's value, each conditional form agrees with its unconditional counterpart, so the operation is applied once |
| Fields.ConditionalConstFormsAgree | src/main/java/cubicchunks/worldgen/generator/custom/builder/IBuilder.java:136-180 | The constant forms of `addIf`/`subIf`/`mulIf`/`divIf`, built through `applyIf`, agree everywhere with the field forms applied to a constant field |
| Fields.ClampRange | src/main/java/cubicchunks/worldgen/generator/custom/builder/IBuilder.java:118-124 | For `min <= max`, a clamped field stays in `[min, max]`, an in-range value passes through, and clamping twice equals clamping once |
| Fields.ClampIfSelective | src/main/java/cubicchunks/worldgen/generator/custom/builder/IBuilder.java:182-187 | `clampIf` brings into `[min, max]` the values its predicate accepts and passes every other value through untouched |
| Fields.LerpEndpointsAndExtrapolation | src/main/java/cubicchunks/worldgen/generator/custom/builder/IBuilder.java:199-207 | Selector 0 gives `low` and selector 1 gives `high`; a selector in `[0, 1]` gives a value between them, whichever endpoint is larger; a selector above 1 lands beyond `high` and one below 0 beyond `low` (above `high` when `low < high`, below it when `high < low`), because the selector is not clamped |
| Fields.LerpValueShape | src/main/java/cubicchunks/worldgen/generator/custom/builder/IBuilder.java:205-206 | The scalar interpolation `low + t*(high-low)` stays between the endpoints for `t` in `[0, 1]` and extrapolates past them outside that range, for `low <= high` and for `high <= low` alike |
| Fields.Apply | src/main/java/cubicchunks/worldgen/generator/custom/builder/IBuilder.java:122-124 | `apply(func)` maps every value through `func`; no contract of its own, its use by the constant forms is stated in `Fields.ConstFormsAgreeWithFieldForms` |
| Fields.Add | src/main/java/cubicchunks/worldgen/generator/custom/builder/IBuilder.java:86-88 | `add(builder)`; no contract of its own, its pointwise sum is stated in `Fields.FieldArithmeticPointwise` and `Fields.InverseOperations` |
| Fields.AddConst | src/main/java/cubicchunks/worldgen/generator/custom/builder/IBuilder.java:90-92 | `add(c)` through `apply`; no contract of its own, its agreement with `add` of a constant field is stated in `Fields.ConstFormsAgreeWithFieldForms` |
| Fields.Sub | src/main/java/cubicchunks/worldgen/generator/custom/builder/IBuilder.java:94-96 | `sub(builder)`; no contract of its own, stated in `Fields.FieldArithmeticPointwise` and `Fields.InverseOperations` |
| Fields.SubConst | src/main/java/cubicchunks/worldgen/generator/custom/builder/IBuilder.java:98-100 | `sub(c)` through `apply`; no contract of its own, stated in `Fields.ConstFormsAgreeWithFieldForms` |
| Fields.Mul | src/main/java/cubicchunks/worldgen/generator/custom/builder/IBuilder.java:102-104 | `mul(builder)`; no contract of its own, stated in `Fields.FieldArithmeticPointwise` and `Fields.InverseOperations` |
| Fields.MulConst | src/main/java/cubicchunks/worldgen/generator/custom/builder/IBuilder.java:106-108 | `mul(c)` through `apply`; no contract of its own, stated in `Fields.ConstFormsAgreeWithFieldForms` |
| Fields.Div | src/main/java/cubicchunks/worldgen/generator/custom/builder/IBuilder.java:110-112 | `div(builder)`; no contract of its own, the quotient where the divisor is nonzero is stated in `Fields.FieldArithmeticPointwise` and `Fields.InverseOperations` |
| Fields.DivConst | src/main/java/cubicchunks/worldgen/generator/custom/builder/IBuilder.java:114-116 | `div(c)` through `apply`; no contract of its own, stated in `Fields.ConstFormsAgreeWithFieldForms` |
| Fields.Clamp | src/main/java/cubicchunks/worldgen/generator/custom/builder/IBuilder.java:118-120 | `clamp(min, max)` through `apply`; no contract of its own, range, pass-through and idempotence are stated in `Fields.ClampRange` |
| Fields.Lerp | src/main/java/cubicchunks/worldgen/generator/custom/builder/IBuilder.java:205-207 | `lerp(low, high)` with the receiver as selector; no contract of its own, endpoints and extrapolation are stated in `Fields.LerpEndpointsAndExtrapolation` |
| Fields.LerpValue | src/main/java/cubicchunks/worldgen/generator/custom/builder/IBuilder.java:206 | `MathUtil.lerp` as `low + t*(high-low)`; no contract of its own, its shape is stated in `Fields.LerpValueShape` |
| Fields.ApplyIf | src/main/java/cubicchunks/worldgen/generator/custom/builder/IBuilder.java:189-197 | `applyIf`; no contract of its own, frame and single application are stated in `Fields.ConditionalFrame` and `Fields.ConditionalAppliesOnce` |
| Fields.AddIf | src/main/java/cubicchunks/worldgen/generator/custom/builder/IBuilder.java:126-134 | `addIf(pred, builder)`; no contract of its own, stated in `Fields.ConditionalFrame` and `Fields.ConditionalAppliesOnce` |
| Fields.AddIfConst | src/main/java/cubicchunks/worldgen/generator/custom/builder/IBuilder.java:136-138 | `addIf(pred, c)` through `applyIf`; no contract of its own, stated in `Fields.ConditionalConstFormsAgree` |
| Fields.SubIf | src/main/java/cubicchunks/worldgen/generator/custom/builder/IBuilder.java:140-148 | `subIf(pred, builder)`; no contract of its own, stated in `Fields.ConditionalFrame` and `Fields.ConditionalAppliesOnce` |
| Fields.SubIfConst | src/main/java/cubicchunks/worldgen/generator/custom/builder/IBuilder.java:150-152 | `subIf(pred, c)` through `applyIf`; no contract of its own, stated in `Fields.ConditionalConstFormsAgree` |
| Fields.MulIf | src/main/java/cubicchunks/worldgen/generator/custom/builder/IBuilder.java:154-162 | `mulIf(pred, builder)`; no contract of its own, stated in `Fields.ConditionalFrame` and `Fields.ConditionalAppliesOnce` |
| Fields.MulIfConst | src/main/java/cubicchunks/worldgen/generator/custom/builder/IBuilder.java:164-166 | `mulIf(pred, c)` through `applyIf`; no contract of its own, stated in `Fields.ConditionalConstFormsAgree` |
| Fields.DivIf | src/main/java/cubicchunks/worldgen/generator/custom/builder/IBuilder.java:168-176 | `divIf(pred, builder)`; no contract of its own, stated in `Fields.ConditionalFrame` and `Fields.ConditionalAppliesOnce` |
| Fields.DivIfConst | src/main/java/cubicchunks/worldgen/generator/custom/builder/IBuilder.java:178-180 | `divIf(pred, c)` through `applyIf`; no contract of its own, stated in `Fields.ConditionalConstFormsAgree` |
| Fields.ClampIf | src/main/java/cubicchunks/worldgen/generator/custom/builder/IBuilder.java:182-187 | `clampIf` through `apply`; no contract of its own, its selective clamping is stated in `Fields.ClampIfSelective` and `Fields.ConditionalFrame` |
| Terrain.YTimes8 | src/main/java/cubicchunks/worldgen/generator/custom/CustomTerrainGenerator.java:104-106 | The `int` product `y*8` with 32-bit wrap; no contract of its own, exactness on `[-2^28, 2^28)` is stated in `Terrain.YTimes8Exact` |
| Terrain.RandomHeight2d | src/main/java/cubicchunks/worldgen/generator/custom/CustomTerrainGenerator.java:84-94 | The `randomHeight2d` combinator chain; no contract of its own, its case-split form and bounds are stated in `Terrain.RandomHeight2dDividesOnce` |
| Terrain.VolatilityDivisor | src/main/java/cubicchunks/worldgen/generator/custom/CustomTerrainGenerator.java:104 | The divisor field `y*8/MAX_ELEV < height ? 4 : 1`; no contract of its own, stated in `Terrain.TerrainDensityFormula` |
| Terrain.TerrainDensity | src/main/java/cubicchunks/worldgen/generator/custom/CustomTerrainGenerator.java:102-106 | The `terrainBuilder` combinator composition; no contract of its own, its closed formula is stated in `Terrain.TerrainDensityFormula` and `Terrain.NewGenerator` |
| Terrain.DensityAt | src/main/java/cubicchunks/worldgen/generator/custom/CustomTerrainGenerator.java:102-106 | The closed density formula used as the reference for the composition; no contract of its own, related to the field in `Terrain.NewGenerator` and to height in `Terrain.DensityFallsWithHeight` |
| Regions.AxisSize | src/main/java/cubicchunks/worldgen/generator/custom/builder/IBuilder.java:62-65 | `abs(a - b) + 1` is at least 1 and is the number of integers from the smaller corner coordinate to the larger |
| Regions.RegionSize | src/main/java/cubicchunks/worldgen/generator/custom/builder/IBuilder.java:62-67 | The reported size `dx*dy*dz` is at least 1 for every pair of corners |
| Regions.BoxPositions | src/main/java/cubicchunks/worldgen/generator/custom/builder/IBuilder.java:73 | The box enumeration holds exactly the positions between the two corners, in either corner order, each exactly once, and its length is the reported size |
| Regions.Iterate | src/main/java/cubicchunks/worldgen/generator/custom/builder/IBuilder.java:70-84 | `iterator` yields as many entries as the reported size; every entry lies in the box and carries the field's own value at its coordinates; every box position appears; no two entries share a position |
| Regions.Stream | src/main/java/cubicchunks/worldgen/generator/custom/builder/IBuilder.java:58-68 | The plain stream's SIZED hint equals the number of entries it yields, and that number is at least 1 |
| Regions.ScaledStream | src/main/java/cubicchunks/worldgen/generator/custom/builder/IBuilder.java:209-219 | `scaledStream` reports `dx*dy*dz`, the same size as the plain stream over the same region, and carries the interpolating iterator's entries |
| Terrain.Int32 | src/main/java/cubicchunks/worldgen/generator/custom/CustomTerrainGenerator.java:104-106 | The Java `int` result of an arithmetic value lies in the 32-bit range, is congruent to the value modulo 2^32, and equals it when the value fits |
| Terrain.YTimes8Exact | src/main/java/cubicchunks/worldgen/generator/custom/CustomTerrainGenerator.java:104-106 | The `int` product `y*8` used by the terrain builder equals `8y` for every `y` in `[-2^28, 2^28)` |
| Terrain.HeightPerturbation | src/main/java/cubicchunks/worldgen/generator/custom/CustomTerrainGenerator.java:89-94 | The single-case-split form of the 2D height perturbation always lies in `[-2/5.6, 1/8] * (0.2*17/64)` |
| Terrain.RandomHeight2dDividesOnce | src/main/java/cubicchunks/worldgen/generator/custom/CustomTerrainGenerator.java:89-94 | The `randomHeight2d` chain equals that case split at every point: after `clamp(-2, 1)` each value is divided exactly once, by 5.6 if negative and by 8 otherwise; so the output is bounded by `[-2/5.6, 1/8] * (0.2*17/64)` |
| Terrain.RandomHeight2dIsColumnwise | src/main/java/cubicchunks/worldgen/generator/custom/CustomTerrainGenerator.java:84-94 | When the raw noise does not depend on `y`, as its zero `y` frequency intends, the perturbation does not either |
| Terrain.TerrainDensityFormula | src/main/java/cubicchunks/worldgen/generator/custom/CustomTerrainGenerator.java:102-106 | The composed terrain field equals `(lerp(sel, low, high)*vol/d + height + rand2d)*MAX_ELEV + 64 - y*8`, with `d = 4` exactly when `y*8/MAX_ELEV < height` and `d = 1` otherwise |
| Terrain.DensityFallsWithHeight | src/main/java/cubicchunks/worldgen/generator/custom/CustomTerrainGenerator.java:106 | When the inputs and the height test are the same one block higher, the density there is exactly 8 lower |
| Terrain.NewGenerator | src/main/java/cubicchunks/worldgen/generator/custom/CustomTerrainGenerator.java:61-107 | The constructed generator keeps its biome source, and its terrain field equals the closed density formula at every point, using the case-split height perturbation of the raw 2D noise |
| Terrain.SetChunk | src/main/java/cubicchunks/worldgen/generator/custom/CustomTerrainGenerator.java:121 | Setting the chunk records the new chunk context and leaves the height, volatility and biome lookups unchanged |
| Terrain.SelectionCasesPartition | src/main/java/cubicchunks/worldgen/generator/custom/CustomTerrainGenerator.java:138-157 | Exactly one of the five outcomes applies to every sample: water, air, surface, shallow filler or stone |
| Terrain.GetBlock | src/main/java/cubicchunks/worldgen/generator/custom/CustomTerrainGenerator.java:130-159 | The chosen block sits at the entry's own `(x, y, z)`. Water iff `density <= 0 && y < 64`. Air iff `density <= 0 && y >= 64`. Top iff `density > 0`, `density + yGrad <= 0` and `y >= 63`. Filler iff either that surface case holds with `y < 63`, or `density > 0`, `density + yGrad > 0`, `yGrad < 0` and `density < 4`. Stone in every other solid case. Top and filler come from the biome at the entry's position |
| Terrain.GetBlockExamples | src/main/java/cubicchunks/worldgen/generator/custom/CustomTerrainGenerator.java:138-157 | Density -0.1 fifty blocks below sea level gives water; density 0.2 with a gradient that empties the block above gives filler there and the biome's top block at sea level |
| Terrain.CubeBlockRange | src/main/java/cubicchunks/worldgen/generator/custom/CustomTerrainGenerator.java:118-120 | A coordinate lies between a cube's first and last block exactly when it divided by 16, rounding down, is the cube coordinate |
| Terrain.CubeRegion | src/main/java/cubicchunks/worldgen/generator/custom/CustomTerrainGenerator.java:117-120 | The block range of a cube holds 16^3 positions, exactly the blocks that belong to that cube |
| Terrain.Generate | src/main/java/cubicchunks/worldgen/generator/custom/CustomTerrainGenerator.java:117-123 | `generate` leaves the biome source as `setChunk(cubeX, cubeZ)` of the old one. It keeps the terrain field. It streams from the cube's minimum block to its maximum block, 16^3 blocks, with stride `(4, 8, 4)`, positive on every axis. It writes one block per streamed entry, chosen by `getBlock` with the updated biome source |

## Left out

- Noise sources (Perlin octaves, seeding, the frequency constants of `CustomTerrainGenerator.java:62-88`) and the `java.util.Random` seed draws are not part of this model. The selector, `low`, `high` and the raw 2D noise are field parameters.
- The biome height/volatility source (per-chunk cache, biome lookup and smoothing) is not part of this model. Height, volatility and biome are function parameters. `setChunk` only records the context value, and the cache it invalidates is not modelled.
- The interpolating iterator behind `scaledStream` (trilinear interpolation and gradients) is not part of this model. It is the `Interpolator` parameter. Only its size hint is stated.
- Floating point is modelled as `real`. Rounding, infinities and NaN are not represented. Division by zero gives 0.0 in `Quot`, and no contract speaks about those points.
- Fields.Quot: the field and constant `div`/`divIf` forms state nothing at points where the divisor is zero, where Java double division yields an infinity or NaN.
- `MathHelper.clamp`, `MathUtil.lerp` and `BlockPos.getAllInBox` are declared outside this model. They are modelled as a min/max clamp, as `low + t*(high - low)`, and as every box position once. The iteration order of `getAllInBox` is not modelled.
- Regions.RegionSize: the size `dx*dy*dz` and `abs(start - end) + 1` are computed with unbounded integers. Java `int` arithmetic overflows only when the region holds more than 2^31 - 1 blocks; a cube holds 4096.
- `MAX_ELEV` is declared in `GlobalGeneratorConfig`, outside this model. It is a positive real parameter, and `y*8/MAX_ELEV` is a real division of the wrapped `int` product `y*8`.
- Terrain.CubeRegion: `CubePos` is not part of this model. A cube's block range is `16c .. 16c + 15` on each axis with unbounded integers; the wrap of `c << 4` for cube coordinates beyond 2^27 is not modelled.
- Block states are the abstract `Air`, `Water`, `Stone`, `TopBlock(biome)` and `FillerBlock(biome)`. A biome whose top or filler block is, say, stone is still distinguished from `Stone`. `ICubePrimer` writes are the sequence of placed blocks.
- Java stream and spliterator plumbing (laziness, the SIZED flag as such, `forEach`) is not modelled. Streams are finite sequences with a size hint.
- `StructuresAdvancedTab.java` is GUI construction with no behaviour to state.
