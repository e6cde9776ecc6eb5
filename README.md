# Perlin terrain script, modelled in Dafny

This project models the core of the Unity terrain script `GeneratePerlinTerrainScript` from the
perlinworld repository. The script does three things:

- It fills the terrain's heightmap grid with one Perlin-noise sample per cell.
- It paints the terrain's splatmap. Each alphamap cell samples the terrain height and scales it by
  `textureScale`. A fixed ladder of four threshold rules (breakpoints at 0.15, 0.25, 0.6 and 0.7 of
  `depth`) then sets grass, mountain and water weights, which are normalised to sum to 1.
- It watches five inspector parameters for changes, using a snapshot.

Files:

- `sampling.dfy` (module `Sampling`): `Mathf.RoundToInt` with the tie rule as a parameter, the
  alphamap-to-heightmap index mapping, and the noise coordinate `i / n * scale`.
- `splat_weights.dfy` (module `SplatWeights`): the threshold ladder and the normalisation as pure
  functions, plus the lemmas about them (last rule wins, five bands, a sum that is never zero,
  normalised weights sum to 1).
- `terrain_script.dfy` (module `PerlinTerrain`): the script as a class. It has the source's fields,
  the dirty-flag snapshot, `GenerateHeights` filling an `array2`, and `RecolorMap` filling an
  `array3` through per-cell methods. Each method is proved against the pure functions.

Modelling choices:

- Heights, weights and thresholds are `real`. Every weight the ladder writes is an exact binary
  fraction.
- `Mathf.PerlinNoise` is a function-typed parameter `noise` of `GenerateHeights`.
- `TerrainData.GetHeight` is the function field `getHeight` of the `TerrainSurface` value. That value
  also carries the heightmap and alphamap resolutions and the layer count.
- `getHeight` takes its arguments in the order line 97 passes them: first the index derived from
  `y`, then the index derived from `x`.
- A terrain with fewer than three alphamap layers makes the script's first weight writes
  (lines 111–114) throw. The model returns `IndexOutOfRange` in that case, and the splatmap stays
  all zeros. The model checks for this before the loops rather than inside the first cell. No
  splatmap entry is written before that point, so the resulting state is the same.
- The script scales the sampled height just after it sets up a cell's initial weights. The model
  scales it just before. The initial weights do not depend on the height, so the result is the same.

The script takes a single noise sample per heightmap cell, at coordinates stretched by `scale`.
Its thresholds are fractions of `depth`. `frequency` and `amplitude` are declared but never read.

## Model

| member | source | states |
|---|---|---|
| Sampling.RoundToInt | Assets/GeneratePerlinTerrainScript.cs:97 | the rounded value lies within one half of its argument, and only an exact .5 tie leaves a choice |
| Sampling.SampleIndex | Assets/GeneratePerlinTerrainScript.cs:93-97 | the heightmap index sampled for an alphamap cell lies between 0 and the heightmap dimension, inclusive |
| Sampling.SampleIndexReachesDimension | Assets/GeneratePerlinTerrainScript.cs:93-97 | when the alphamap axis has more than twice as many cells as the heightmap axis has samples, the last cell's index is the heightmap dimension itself, one past the last sample, whatever the tie rule |
| Sampling.CellCoord | Assets/GeneratePerlinTerrainScript.cs:169-175 | the noise coordinate of a grid index lies in [0, scale] and is 0 at the origin |
| SplatWeights.SumDivided | Assets/GeneratePerlinTerrainScript.cs:155-158 | dividing every weight by z divides their sum by z |
| SplatWeights.NormalizeSumsToOne | Assets/GeneratePerlinTerrainScript.cs:151-158 | weights divided by their own nonzero sum add up to 1 |
| SplatWeights.Threshold | Assets/GeneratePerlinTerrainScript.cs:119-141 | for a positive depth the four breakpoints strictly increase |
| SplatWeights.InitialWeights | Assets/GeneratePerlinTerrainScript.cs:106-114 | before any rule fires, grass, mountain and water are (0, 0, 0.5), and every extra layer is 0 |
| SplatWeights.Step | Assets/GeneratePerlinTerrainScript.cs:118-149 | one rule of the ladder changes no layer beyond the third and keeps the number of weights |
| SplatWeights.RawWeights | Assets/GeneratePerlinTerrainScript.cs:110-149 | the ladder leaves one weight per layer, with 0 on every layer beyond the third |
| SplatWeights.LastFiringRule | Assets/GeneratePerlinTerrainScript.cs:119-149 | picks the last rule whose strict threshold the height exceeds: that rule's condition holds and no later rule's does |
| SplatWeights.LastRuleWins | Assets/GeneratePerlinTerrainScript.cs:119-149 | for any depth the rules overwrite rather than add, so the weights are exactly those written by the last rule that fired (or the initial ones) |
| SplatWeights.RawBands | Assets/GeneratePerlinTerrainScript.cs:119-149 | for a positive depth, the five height bands give (0,0,0.5), (0.25,0,0.25), (0.5,0,0), (0.25,0.5,0) and (0,0.5,0) |
| SplatWeights.RawSum | Assets/GeneratePerlinTerrainScript.cs:119-152 | every weight is in [0, 0.5] and their sum is 0.5 or 0.75, so the division by the sum is never by zero |
| SplatWeights.CellWeights | Assets/GeneratePerlinTerrainScript.cs:151-162 | a cell's normalised weights, one per layer, each lie in [0, 1], add up to 1, and are 0 on layers beyond the third |
| SplatWeights.NormalizedBands | Assets/GeneratePerlinTerrainScript.cs:110-158 | for a positive depth, the five bands normalise to (0,0,1), (0.5,0,0.5), (1,0,0), (1/3,2/3,0) and (0,1,0) |
| PerlinTerrain.ChangedIffWatchedFieldDiffers | Assets/GeneratePerlinTerrainScript.cs:54-61 | a change is detected if and only if one of the five watched parameters differs from its snapshot |
| PerlinTerrain.FrequencyAndAmplitudeIgnored | Assets/GeneratePerlinTerrainScript.cs:54-61 | changing frequency or amplitude never changes whether a change is detected |
| PerlinTerrain.GeneratePerlinTerrainScript.constructor | Assets/GeneratePerlinTerrainScript.cs:7-26 | a new script has the inspector defaults and an all-zero snapshot |
| PerlinTerrain.GeneratePerlinTerrainScript.CaptureUnityFacingVariables | Assets/GeneratePerlinTerrainScript.cs:45-52 | the snapshot equals the watched parameters, so no change is detected right after it; nothing else changes |
| PerlinTerrain.GeneratePerlinTerrainScript.UnityVariableChanged | Assets/GeneratePerlinTerrainScript.cs:54-61 | true exactly when the watched parameters differ from the snapshot |
| PerlinTerrain.GeneratePerlinTerrainScript.CalculateHeight | Assets/GeneratePerlinTerrainScript.cs:169-175 | a cell of the heightmap grid samples the noise at a point of [0, scale] on both axes (for a non-negative scale), and the origin cell samples it at (0, 0) |
| PerlinTerrain.GeneratePerlinTerrainScript.GenerateHeights | Assets/GeneratePerlinTerrainScript.cs:70-82 | returns a fresh heightmap-sized grid, kept as the script's heights, in which every cell (x, y) holds CalculateHeight(x, y), the noise at (x / heightmapWidth * scale, y / heightmapHeight * scale) |
| PerlinTerrain.GeneratePerlinTerrainScript.SumWeights | Assets/GeneratePerlinTerrainScript.cs:152 | the loop's total equals the sum of the weight array |
| PerlinTerrain.GeneratePerlinTerrainScript.ApplyRules | Assets/GeneratePerlinTerrainScript.cs:105-149 | the fresh weight array, once the initial weights and the four rules have run, holds exactly the ladder's weights for the scaled height |
| PerlinTerrain.GeneratePerlinTerrainScript.NormalizeInto | Assets/GeneratePerlinTerrainScript.cs:154-162 | every weight is divided by the sum in place and copied to the same layer of its splatmap cell; no other splatmap entry changes |
| PerlinTerrain.GeneratePerlinTerrainScript.WeighCell | Assets/GeneratePerlinTerrainScript.cs:105-162 | every layer of the cell gets the normalised ladder weight of the given scaled height; every other cell is unchanged |
| PerlinTerrain.GeneratePerlinTerrainScript.RecolorCell | Assets/GeneratePerlinTerrainScript.cs:92-162 | every layer of the cell gets the normalised ladder weight of its sampled height times the texture scale; every other cell is unchanged |
| PerlinTerrain.GeneratePerlinTerrainScript.PaintAll | Assets/GeneratePerlinTerrainScript.cs:88-164 | rows outside, columns inside: once the loops finish, every cell of the splatmap holds its weights |
| PerlinTerrain.GeneratePerlinTerrainScript.RecolorMap | Assets/GeneratePerlinTerrainScript.cs:84-165 | allocates a splatmap of shape alphamap width × height × layers. It fails exactly when there are fewer than three layers and at least one cell, and then leaves the splatmap all zeros. Otherwise every (x, y, layer) entry holds its cell's normalised weight |

## Left out

- `Start` and `FixedUpdate` are Unity lifecycle callbacks; only their ingredients (capture, change test, generation, painting) are modelled.
- `GeneratePerlinTerrain` sets `terrainData.size` and calls `SetHeights`, both engine calls that are not modelled. The same goes for `SetAlphamaps` at the end of `RecolorMap`.
- `Mathf.PerlinNoise` is foreign floating-point code. It is a parameter, and nothing is claimed about its range.
- `TerrainData.GetHeight` is the engine's lookup, including its handling of an index equal to the heightmap dimension. It is an abstract function of its two integer arguments.
- `GetInterpolatedNormal` and `GetSteepness` are engine calls whose results are never used.
- The `System.Random` field, `rend`, `frequency` and `amplitude` are never read by the script. They are kept as fields only where the inspector state needs them.
- Float arithmetic is not modelled: float rounding of `depth * 0.15` and of the divisions, NaN in the `!=` comparisons, and float storage of `_oldWidth` and `_oldHeight` (modelled as `int`).
- Sampling.RoundToInt: Unity rounds ties to even. The model leaves the tie rule as a parameter, and no result depends on it.
- PerlinTerrain.GeneratePerlinTerrainScript.RecolorMap: proves that every entry is written with its cell's weight and that each cell's painting leaves other cells alone. It does not count writes, so "exactly once" is not stated as such.
