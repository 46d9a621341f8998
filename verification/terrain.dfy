/**
 This module models the custom terrain generator: how the final density field
 is composed from noise fields and biome parameters, the bounded 2D height
 perturbation, the per-cube generation request, and the choice of a block from
 a density sample and its vertical gradient.

 The noise sources (the selector, the two terrain fields and the raw 2D noise)
 and the biome source's height, volatility and biome lookup are parameters:
 their code is not part of this model.
 */
module Terrain {
  import opened Fields
  import opened Regions

  const SeaLevel: int := 64
  /** Density below which a solid block under a falling slope becomes filler. */
  const DirtDepth: real := 4.0
  /** Final scale of the 2D height perturbation (`0.2*17/64.0`). */
  const HeightScale: real := 0.2 * 17.0 / 64.0
  /** Blocks per cube edge. */
  const CubeSize: int := 16
  /** The stride at which the terrain field is sampled before interpolation. */
  const Stride: Vec3i := Vec3i(4, 8, 4)

  // ---------------------------------------------------------------------------
  // 32-bit integer arithmetic
  // ---------------------------------------------------------------------------

  const TwoTo31: int := 0x8000_0000
  const TwoTo32: int := 0x1_0000_0000

  /** The value a Java `int` holds after an arithmetic result `v` wraps. */
  function Int32(v: int): (r: int)
    ensures -TwoTo31 <= r < TwoTo31
    ensures (v - r) % TwoTo32 == 0
    ensures -TwoTo31 <= v < TwoTo31 ==> r == v
  {
    (v + TwoTo31) % TwoTo32 - TwoTo31
  }

  /** `y*8` computed in `int`. */
  function YTimes8(y: int): int
  {
    Int32(y * 8)
  }

  /** The product only wraps for heights outside `[-2^28, 2^28)`. */
  lemma YTimes8Exact(y: int)
    requires -0x1000_0000 <= y < 0x1000_0000
    ensures YTimes8(y) == 8 * y
  {
  }

  // ---------------------------------------------------------------------------
  // The 2D height perturbation
  // ---------------------------------------------------------------------------

  /** The `randomHeight2d` chain applied to the raw 2D noise field. */
  function RandomHeight2d(noise: Field): Field
  {
    var folded := MulIfConst(noise, Negative, -0.3);
    var shifted := SubConst(MulConst(folded, 3.0), 2.0);
    var clamped := Clamp(shifted, -2.0, 1.0);
    var compressed := DivIfConst(DivIfConst(clamped, Negative, 2.0 * 2.0 * 1.4), NotNegative, 8.0);
    MulConst(compressed, HeightScale)
  }

  /** The perturbation of one noise value written as a single case split:
      negative excursions are folded and shrunk, the result is clamped to
      `[-2, 1]` and then divided once, by 5.6 below zero and by 8 otherwise. */
  function HeightPerturbation(n: real): (r: real)
    ensures -2.0 / 5.6 * HeightScale <= r <= 1.0 / 8.0 * HeightScale
  {
    var folded := if n < 0.0 then n * -0.3 else n;
    var c := ClampValue(folded * 3.0 - 2.0, -2.0, 1.0);
    (if c < 0.0 then c / 5.6 else c / 8.0) * HeightScale
  }

  /** The chain of conditional divisions divides each clamped value exactly
      once: a negative value divided by 5.6 stays negative, so the second,
      not-negative branch never fires on it. */
  lemma RandomHeight2dDividesOnce(noise: Field, x: int, y: int, z: int)
    ensures RandomHeight2d(noise)(x, y, z) == HeightPerturbation(noise(x, y, z))
    ensures -2.0 / 5.6 * HeightScale <= RandomHeight2d(noise)(x, y, z) <= 1.0 / 8.0 * HeightScale
  {
  }

  /** A noise field that ignores the vertical coordinate yields a perturbation
      that ignores it too. */
  lemma RandomHeight2dIsColumnwise(noise: Field, x: int, y: int, y': int, z: int)
    requires noise(x, y, z) == noise(x, y', z)
    ensures RandomHeight2d(noise)(x, y, z) == RandomHeight2d(noise)(x, y', z)
  {
  }

  // ---------------------------------------------------------------------------
  // The terrain density field
  // ---------------------------------------------------------------------------

  /** 4 where `y*8/MAX_ELEV` lies below the biome height, 1 elsewhere. */
  function VolatilityDivisor(height: Field, maxElev: real): Field
    requires maxElev > 0.0
  {
    (x, y, z) => if (YTimes8(y) as real) / maxElev < height(x, y, z) then 4.0 else 1.0
  }

  /** The `terrainBuilder` composition. */
  function TerrainDensity(selector: Field, low: Field, high: Field, height: Field,
                          volatility: Field, randomHeight: Field, maxElev: real): Field
    requires maxElev > 0.0
  {
    var terrain := Mul(Lerp(selector, low, high), Div(volatility, VolatilityDivisor(height, maxElev)));
    var base := Add(Add(terrain, height), randomHeight);
    Sub(AddConst(MulConst(base, maxElev), 64.0), (x, y, z) => YTimes8(y) as real)
  }

  /** The density at one column position as a closed formula. */
  function DensityAt(sel: real, low: real, high: real, height: real, volatility: real,
                     randomHeight: real, y: int, maxElev: real): real
    requires maxElev > 0.0
  {
    var divisor := if (YTimes8(y) as real) / maxElev < height then 4.0 else 1.0;
    (LerpValue(sel, low, high) * volatility / divisor + height + randomHeight) * maxElev
      + 64.0 - YTimes8(y) as real
  }

  /** The composed field is the closed formula at every point: the volatility
      is quartered exactly where `y*8/MAX_ELEV` is below the biome height. */
  lemma TerrainDensityFormula(selector: Field, low: Field, high: Field, height: Field,
                              volatility: Field, randomHeight: Field, maxElev: real,
                              x: int, y: int, z: int)
    requires maxElev > 0.0
    ensures var d := TerrainDensity(selector, low, high, height, volatility, randomHeight, maxElev)(x, y, z);
            var t := LerpValue(selector(x, y, z), low(x, y, z), high(x, y, z));
            var b := height(x, y, z) + randomHeight(x, y, z);
            && ((YTimes8(y) as real) / maxElev < height(x, y, z) ==>
                 d == (t * volatility(x, y, z) / 4.0 + b) * maxElev + 64.0 - YTimes8(y) as real)
            && ((YTimes8(y) as real) / maxElev >= height(x, y, z) ==>
                 d == (t * volatility(x, y, z) + b) * maxElev + 64.0 - YTimes8(y) as real)
  {
  }

  /** With every input field unchanged one block higher, and the height test
      giving the same answer at both heights, density drops by exactly 8 per
      block: the rebase makes the ground roughly horizontal. */
  lemma DensityFallsWithHeight(sel: real, low: real, high: real, height: real, volatility: real,
                               randomHeight: real, y: int, maxElev: real)
    requires maxElev > 0.0
    requires -0x1000_0000 <= y < 0x1000_0000 - 1
    requires ((8 * y) as real) / maxElev < height <==> ((8 * (y + 1)) as real) / maxElev < height
    ensures DensityAt(sel, low, high, height, volatility, randomHeight, y + 1, maxElev)
            == DensityAt(sel, low, high, height, volatility, randomHeight, y, maxElev) - 8.0
  {
  }

  // ---------------------------------------------------------------------------
  // Biome source and generator
  // ---------------------------------------------------------------------------

  type BiomeId = int

  /** The biome height/volatility source: the last chunk context it was given
      and the three lookups it answers. */
  datatype BiomeSource = BiomeSource(chunkX: int, chunkZ: int,
                                     height: Field, volatility: Field,
                                     biomeAt: (int, int, int) -> BiomeId)

  /** `setChunk`: records the new chunk context and nothing else. */
  function SetChunk(src: BiomeSource, cx: int, cz: int): (r: BiomeSource)
    ensures r.chunkX == cx && r.chunkZ == cz
    ensures r.height == src.height && r.volatility == src.volatility && r.biomeAt == src.biomeAt
  {
    src.(chunkX := cx, chunkZ := cz)
  }

  datatype Generator = Generator(terrain: Field, biomes: BiomeSource)

  /** The constructor: the seed draws are replaced by the four noise fields
      they would configure. */
  function NewGenerator(selector: Field, low: Field, high: Field, heightNoise: Field,
                        biomes: BiomeSource, maxElev: real): (g: Generator)
    requires maxElev > 0.0
    ensures g.biomes == biomes
    ensures forall x, y, z :: g.terrain(x, y, z) ==
              DensityAt(selector(x, y, z), low(x, y, z), high(x, y, z),
                        biomes.height(x, y, z), biomes.volatility(x, y, z),
                        HeightPerturbation(heightNoise(x, y, z)), y, maxElev)
  {
    var terrain := TerrainDensity(selector, low, high, biomes.height, biomes.volatility,
                                  RandomHeight2d(heightNoise), maxElev);
    forall x, y, z
      ensures terrain(x, y, z) ==
              DensityAt(selector(x, y, z), low(x, y, z), high(x, y, z),
                        biomes.height(x, y, z), biomes.volatility(x, y, z),
                        HeightPerturbation(heightNoise(x, y, z)), y, maxElev)
    {
      RandomHeight2dDividesOnce(heightNoise, x, y, z);
    }
    Generator(terrain, biomes)
  }

  // ---------------------------------------------------------------------------
  // Block selection
  // ---------------------------------------------------------------------------

  datatype BlockState = Air | Water | Stone | TopBlock(biome: BiomeId) | FillerBlock(biome: BiomeId)

  /** A block state placed at a position. */
  datatype BlockStateInstance = BlockStateInstance(state: BlockState, x: int, y: int, z: int)

  /* The five outcomes of block selection, each stated on its own. */

  predicate WaterCase(density: real, y: int)
  {
    density <= 0.0 && y < SeaLevel
  }

  predicate AirCase(density: real, y: int)
  {
    density <= 0.0 && y >= SeaLevel
  }

  /** Solid, but the block above would be empty. */
  predicate SurfaceCase(density: real, yGrad: real)
  {
    density > 0.0 && density + yGrad <= 0.0
  }

  /** Solid below the surface, density falling upwards and still shallow. */
  predicate ShallowCase(density: real, yGrad: real)
  {
    density > 0.0 && density + yGrad > 0.0 && yGrad < 0.0 && density < DirtDepth
  }

  predicate StoneCase(density: real, yGrad: real)
  {
    density > 0.0 && density + yGrad > 0.0 && (yGrad >= 0.0 || density >= DirtDepth)
  }

  function Indicator(b: bool): int
  {
    if b then 1 else 0
  }

  /** Exactly one of the five outcomes applies to every sample. */
  lemma SelectionCasesPartition(density: real, yGrad: real, y: int)
    ensures Indicator(WaterCase(density, y)) + Indicator(AirCase(density, y))
            + Indicator(SurfaceCase(density, yGrad)) + Indicator(ShallowCase(density, yGrad))
            + Indicator(StoneCase(density, yGrad)) == 1
  {
  }

  /** `getBlock`: the block for one interpolated sample, placed at the
      sample's own position, with top and filler taken from the biome there. */
  function GetBlock(e: ExtendedEntry, biomeAt: (int, int, int) -> BiomeId): (r: BlockStateInstance)
    ensures r.x == e.x && r.y == e.y && r.z == e.z
    ensures r.state == Water <==> WaterCase(e.value, e.y)
    ensures r.state == Air <==> AirCase(e.value, e.y)
    ensures r.state == Stone <==> StoneCase(e.value, e.gradY)
    ensures r.state.TopBlock? <==> SurfaceCase(e.value, e.gradY) && e.y >= SeaLevel - 1
    ensures r.state.FillerBlock? <==>
              (SurfaceCase(e.value, e.gradY) && e.y < SeaLevel - 1) || ShallowCase(e.value, e.gradY)
    ensures r.state.TopBlock? || r.state.FillerBlock? ==> r.state.biome == biomeAt(e.x, e.y, e.z)
  {
    var density := e.value;
    var yGrad := e.gradY;
    var biome := biomeAt(e.x, e.y, e.z);
    var state :=
      if density > 0.0 then
        if density + yGrad <= 0.0 then
          if e.y < SeaLevel - 1 then FillerBlock(biome) else TopBlock(biome)
        else if yGrad < 0.0 && density < DirtDepth then FillerBlock(biome)
        else Stone
      else if e.y < SeaLevel then Water
      else Air;
    BlockStateInstance(state, e.x, e.y, e.z)
  }

  /** A sample 50 blocks below sea level with density -0.1 becomes water; one
      with density 0.2 whose gradient empties the block above becomes filler
      there and the biome's top block at sea level. */
  lemma GetBlockExamples(biomeAt: (int, int, int) -> BiomeId)
    ensures GetBlock(ExtendedEntry(0, SeaLevel - 50, 0, -0.1, 0.0, 0.0, 0.0), biomeAt).state == Water
    ensures GetBlock(ExtendedEntry(0, SeaLevel - 50, 0, 0.2, 0.0, -0.5, 0.0), biomeAt).state
            == FillerBlock(biomeAt(0, SeaLevel - 50, 0))
    ensures GetBlock(ExtendedEntry(0, SeaLevel, 0, 0.2, 0.0, -0.5, 0.0), biomeAt).state
            == TopBlock(biomeAt(0, SeaLevel, 0))
  {
  }

  // ---------------------------------------------------------------------------
  // Generating one cube
  // ---------------------------------------------------------------------------

  /** What `generate` does for one cube: the generator with its new chunk
      context, the block range and stride it streams, and the blocks it
      writes in stream order. */
  datatype Generated = Generated(generator: Generator, start: Vec3i, end: Vec3i,
                                 scale: Vec3i, blocks: seq<BlockStateInstance>)

  /** The first and last block coordinate of a cube along one axis. */
  function CubeMinBlock(c: int): int
  {
    c * CubeSize
  }

  function CubeMaxBlock(c: int): int
  {
    c * CubeSize + CubeSize - 1
  }

  /** A block lies in the cube whose index is its coordinate divided by 16,
      rounding down, exactly when it lies between the cube's first and last
      block. */
  lemma CubeBlockRange(c: int, b: int)
    ensures CubeMinBlock(c) <= b <= CubeMaxBlock(c) <==> b / CubeSize == c
  {
  }

  /** The first and last block of a cube. */
  function CubeStart(cubeX: int, cubeY: int, cubeZ: int): Vec3i
  {
    Vec3i(CubeMinBlock(cubeX), CubeMinBlock(cubeY), CubeMinBlock(cubeZ))
  }

  function CubeEnd(cubeX: int, cubeY: int, cubeZ: int): Vec3i
  {
    Vec3i(CubeMaxBlock(cubeX), CubeMaxBlock(cubeY), CubeMaxBlock(cubeZ))
  }

  /** A cube's block range holds 16^3 blocks: exactly those whose coordinates,
      divided by 16 rounding down, give the cube's coordinates. */
  lemma CubeRegion(cubeX: int, cubeY: int, cubeZ: int)
    ensures RegionSize(CubeStart(cubeX, cubeY, cubeZ), CubeEnd(cubeX, cubeY, cubeZ))
            == CubeSize * CubeSize * CubeSize
    ensures forall p :: InBox(p, CubeStart(cubeX, cubeY, cubeZ), CubeEnd(cubeX, cubeY, cubeZ)) <==>
              p.x / CubeSize == cubeX && p.y / CubeSize == cubeY && p.z / CubeSize == cubeZ
  {
    var start, end := CubeStart(cubeX, cubeY, cubeZ), CubeEnd(cubeX, cubeY, cubeZ);
    assert AxisSize(start.x, end.x) == CubeSize;
    assert AxisSize(start.y, end.y) == CubeSize;
    assert AxisSize(start.z, end.z) == CubeSize;
    forall p
      ensures InBox(p, start, end) <==>
              p.x / CubeSize == cubeX && p.y / CubeSize == cubeY && p.z / CubeSize == cubeZ
    {
      CubeBlockRange(cubeX, p.x);
      CubeBlockRange(cubeY, p.y);
      CubeBlockRange(cubeZ, p.z);
    }
  }

  /** `generate`: sets the chunk context, streams the cube's block range at
      the sampling stride and picks one block per streamed entry. */
  function Generate(gen: Generator, cubeX: int, cubeY: int, cubeZ: int,
                    interp: Interpolator): (r: Generated)
    ensures r.generator.biomes == SetChunk(gen.biomes, cubeX, cubeZ)
    ensures r.generator.biomes.chunkX == cubeX && r.generator.biomes.chunkZ == cubeZ
    ensures r.generator.terrain == gen.terrain
    ensures r.start == CubeStart(cubeX, cubeY, cubeZ) && r.end == CubeEnd(cubeX, cubeY, cubeZ)
    ensures r.scale == Stride
    ensures r.scale.x > 0 && r.scale.y > 0 && r.scale.z > 0
    ensures RegionSize(r.start, r.end) == CubeSize * CubeSize * CubeSize
    ensures forall p :: InBox(p, r.start, r.end) <==>
              p.x / CubeSize == cubeX && p.y / CubeSize == cubeY && p.z / CubeSize == cubeZ
    ensures var entries := ScaledStream(gen.terrain, r.start, r.end, r.scale, interp).items;
            && |r.blocks| == |entries|
            && forall i :: 0 <= i < |entries| ==>
                 r.blocks[i] == GetBlock(entries[i], r.generator.biomes.biomeAt)
  {
    var start := CubeStart(cubeX, cubeY, cubeZ);
    var end := CubeEnd(cubeX, cubeY, cubeZ);
    var biomes := SetChunk(gen.biomes, cubeX, cubeZ);
    var entries := ScaledStream(gen.terrain, start, end, Stride, interp).items;
    var blocks := seq(|entries|, i requires 0 <= i < |entries| => GetBlock(entries[i], biomes.biomeAt));
    CubeRegion(cubeX, cubeY, cubeZ);
    Generated(Generator(gen.terrain, biomes), start, end, Stride, blocks)
  }
}
