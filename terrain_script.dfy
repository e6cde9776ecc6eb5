/** The terrain script: its inspector-facing parameters, the snapshot used to
    detect that one of them changed, the heightmap grid it generates from a
    noise function and the splatmap it paints from the terrain's heights. */
module PerlinTerrain {
  import opened Sampling
  import opened SplatWeights

  /** The parts of the engine's terrain data the script reads: the heightmap
      and alphamap resolutions, the number of texture layers and the height
      lookup `getHeight`, which the engine supplies. The script passes it the
      index derived from y first and the index derived from x second. */
  datatype TerrainSurface = TerrainSurface(
    heightmapWidth: nat,
    heightmapHeight: nat,
    alphamapWidth: nat,
    alphamapHeight: nat,
    alphamapLayers: nat,
    getHeight: (int, int) -> real)

  /** The five parameters whose change triggers a regeneration. */
  datatype Snapshot = Snapshot(depth: real, width: int, height: int, scale: real, textureScale: real)

  /** The inspector-facing parameters of the script. */
  datatype Inspector = Inspector(
    depth: real, width: int, height: int,
    frequency: real, amplitude: real,
    scale: real, textureScale: real)

  /** The parameters change detection looks at. */
  function Watched(p: Inspector): (s: Snapshot)
    ensures s.depth == p.depth && s.width == p.width && s.height == p.height
    ensures s.scale == p.scale && s.textureScale == p.textureScale
  {
    Snapshot(p.depth, p.width, p.height, p.scale, p.textureScale)
  }

  /** A parameter change is detected exactly when one of depth, width,
      height, scale and texture scale differs from its snapshot. */
  lemma ChangedIffWatchedFieldDiffers(saved: Snapshot, p: Inspector)
    ensures (Watched(p) != saved) <==>
      (p.depth != saved.depth || p.width != saved.width || p.height != saved.height
       || p.scale != saved.scale || p.textureScale != saved.textureScale)
  {
  }

  /** Frequency and amplitude are not watched: changing them never changes
      whether a change is detected. */
  lemma FrequencyAndAmplitudeIgnored(saved: Snapshot, p: Inspector, frequency: real, amplitude: real)
    ensures (Watched(p.(frequency := frequency, amplitude := amplitude)) != saved)
        == (Watched(p) != saved)
  {
  }

  /** The outcome of painting the splatmap: completed, or stopped by the
      out-of-range write of a texture weight when the terrain has fewer than
      three texture layers. */
  datatype Outcome = Completed | IndexOutOfRange

  class GeneratePerlinTerrainScript {
    // inspector-facing parameters
    var depth: real
    var width: int
    var height: int
    var frequency: real
    var amplitude: real
    var scale: real
    var textureScale: real
    // generated data
    var heights: array2<real>
    var splatmapData: array3<real>
    var terrain: TerrainSurface
    // snapshot of the watched parameters
    var oldDepth: real
    var oldWidth: int
    var oldHeight: int
    var oldScale: real
    var oldTextureScale: real

    /** A script attached to `terrain`, with the inspector defaults and an
        all-zero snapshot. */
    constructor (terrain: TerrainSurface)
      ensures Settings() == Inspector(20.0, 200, 200, 1.0, 1.0, 20.0, 1.0)
      ensures Saved() == Snapshot(0.0, 0, 0, 0.0, 0.0)
      ensures this.terrain == terrain
    {
      depth, width, height := 20.0, 200, 200;
      frequency, amplitude := 1.0, 1.0;
      scale, textureScale := 20.0, 1.0;
      heights := new real[0, 0];
      splatmapData := new real[0, 0, 0];
      this.terrain := terrain;
      oldDepth, oldWidth, oldHeight, oldScale, oldTextureScale := 0.0, 0, 0, 0.0, 0.0;
    }

    /** The current inspector parameters. */
    function Settings(): (p: Inspector)
      reads this
    {
      Inspector(depth, width, height, frequency, amplitude, scale, textureScale)
    }

    /** The snapshot taken by the last capture. */
    function Saved(): (s: Snapshot)
      reads this
    {
      Snapshot(oldDepth, oldWidth, oldHeight, oldScale, oldTextureScale)
    }

    /** Records the watched parameters; no change is detected right after. */
    method CaptureUnityFacingVariables()
      modifies this`oldDepth, this`oldWidth, this`oldHeight, this`oldScale, this`oldTextureScale
      ensures Saved() == Watched(Settings())
      ensures !UnityVariableChanged()
    {
      oldDepth := depth;
      oldWidth := width;
      oldHeight := height;
      oldScale := scale;
      oldTextureScale := textureScale;
    }

    /** Whether a watched parameter differs from the snapshot. */
    function UnityVariableChanged(): (changed: bool)
      reads this
      ensures changed <==> Watched(Settings()) != Saved()
    {
      oldDepth != depth || oldWidth != width || oldHeight != height
      || oldScale != scale || oldTextureScale != textureScale
    }

    /** The noise sample for heightmap cell (x, y), taken at the cell's
        position on the heightmap stretched to `scale`. A cell of the grid
        with a non-negative scale samples the noise inside [0, scale] on both axes, and
        the origin cell samples it at (0, 0). */
    function CalculateHeight(x: int, y: int, noise: (real, real) -> real): (h: real)
      reads this
      requires terrain.heightmapWidth > 0 && terrain.heightmapHeight > 0
      ensures (0 <= x <= terrain.heightmapWidth && 0 <= y <= terrain.heightmapHeight
               && 0.0 <= scale) ==>
        exists u, v :: 0.0 <= u <= scale && 0.0 <= v <= scale && h == noise(u, v)
      ensures x == 0 && y == 0 ==> h == noise(0.0, 0.0)
    {
      noise(CellCoord(x, terrain.heightmapWidth, scale), CellCoord(y, terrain.heightmapHeight, scale))
    }

    /** Fills a fresh heightmap-sized grid with one noise sample per cell and
        keeps it as the script's heights. */
    method GenerateHeights(noise: (real, real) -> real) returns (hs: array2<real>)
      modifies this`heights
      ensures fresh(hs) && heights == hs
      ensures hs.Length0 == terrain.heightmapWidth && hs.Length1 == terrain.heightmapHeight
      ensures forall x, y :: 0 <= x < hs.Length0 && 0 <= y < hs.Length1 ==>
        hs[x, y] == CalculateHeight(x, y, noise)
    {
      hs := new real[terrain.heightmapWidth, terrain.heightmapHeight];
      heights := hs;
      var x := 0;
      while x < terrain.heightmapWidth
        invariant 0 <= x <= terrain.heightmapWidth
        invariant heights == hs
        invariant forall i, j :: 0 <= i < x && 0 <= j < hs.Length1 ==>
          hs[i, j] == CalculateHeight(i, j, noise)
      {
        var y := 0;
        while y < terrain.heightmapHeight
          invariant 0 <= y <= terrain.heightmapHeight
          invariant heights == hs
          invariant forall i, j :: 0 <= i < x && 0 <= j < hs.Length1 ==>
            hs[i, j] == CalculateHeight(i, j, noise)
          invariant forall j :: 0 <= j < y ==> hs[x, j] == CalculateHeight(x, j, noise)
        {
          heights[x, y] := CalculateHeight(x, y, noise);
          y := y + 1;
        }
        x := x + 1;
      }
    }

    /** The terrain height sampled for splatmap cell (x, y): row from y,
        column from x, each rounded to the nearest heightmap index. */
    function SampledHeight(x: int, y: int, tie: TieRule): (h: real)
      reads this
      requires 0 <= x < terrain.alphamapWidth && 0 <= y < terrain.alphamapHeight
    {
      terrain.getHeight(
        SampleIndex(y, terrain.alphamapHeight, terrain.heightmapHeight, tie),
        SampleIndex(x, terrain.alphamapWidth, terrain.heightmapWidth, tie))
    }

    /** The sampled height of splatmap cell (x, y) times the texture scale:
        the height the threshold ladder compares. */
    function ScaledHeight(x: int, y: int, tie: TieRule): (h: real)
      reads this
      requires 0 <= x < terrain.alphamapWidth && 0 <= y < terrain.alphamapHeight
    {
      SampledHeight(x, y, tie) * textureScale
    }

    /** The weight of texture layer i at splatmap cell (x, y). */
    function SplatWeight(x: int, y: int, i: int, tie: TieRule): (weight: real)
      reads this
      requires terrain.alphamapLayers >= RequiredLayers
      requires 0 <= x < terrain.alphamapWidth && 0 <= y < terrain.alphamapHeight
      requires 0 <= i < terrain.alphamapLayers
    {
      CellWeights(ScaledHeight(x, y, tie), depth, terrain.alphamapLayers)[i]
    }

    /** Whether `data` has the shape of this terrain's splatmap. */
    predicate SplatmapShaped(data: array3<real>)
      reads this
    {
      data.Length0 == terrain.alphamapWidth
      && data.Length1 == terrain.alphamapHeight
      && data.Length2 == terrain.alphamapLayers
    }

    /** `Enumerable.Sum` over the weight array. */
    static method SumWeights(a: array<real>) returns (z: real)
      ensures z == Sum(a[..])
    {
      z := 0.0;
      var i := 0;
      while i < a.Length
        invariant 0 <= i <= a.Length
        invariant z == Sum(a[..i])
      {
        assert a[..i + 1][..i] == a[..i];
        z := z + a[i];
        i := i + 1;
      }
      assert a[..a.Length] == a[..];
    }

    /** The weight array of one cell before normalisation: a zeroed array of
        `layers` weights set to the initial weights, then overwritten by each
        rule of the ladder whose strict threshold the scaled height `fHeight`
        exceeds. */
    static method ApplyRules(fHeight: real, depth: real, layers: nat) returns (splatWeights: array<real>)
      requires layers >= RequiredLayers
      ensures fresh(splatWeights)
      ensures splatWeights[..] == RawWeights(fHeight, depth, layers)
    {
      splatWeights := new real[layers](_ => 0.0);
      splatWeights[0] := 0.0;
      splatWeights[1] := 0.0;
      // water starts at half weight; the rules below may lower it
      splatWeights[2] := 0.5;
      ghost var w := InitialWeights(layers);
      assert splatWeights[..] == w;
      // shoreline: grass and water share the cell
      if fHeight > depth * 0.15 {
        splatWeights[2] := 0.25;
        splatWeights[0] := 0.25;
      }
      w := Step(1, w, fHeight, depth);
      assert splatWeights[..] == w;
      // lowland: grass only
      if fHeight > depth * 0.25 {
        splatWeights[2] := 0.0;
        splatWeights[0] := 0.5;
      }
      w := Step(2, w, fHeight, depth);
      assert splatWeights[..] == w;
      // foothills: mountain with some grass
      if fHeight > depth * 0.6 {
        splatWeights[2] := 0.0;
        splatWeights[0] := 0.25;
        splatWeights[1] := 0.5;
      }
      w := Step(3, w, fHeight, depth);
      assert splatWeights[..] == w;
      // peaks: mountain only
      if fHeight > depth * 0.7 {
        splatWeights[2] := 0.0;
        splatWeights[0] := 0.0;
        splatWeights[1] := 0.5;
      }
      w := Step(4, w, fHeight, depth);
      assert splatWeights[..] == w;
    }

    /** The normalisation loop of one cell: divides every weight by `z` in
        place and copies it to the same layer of splatmap cell (x, y); no
        other splatmap entry changes. */
    static method NormalizeInto(splatWeights: array<real>, z: real, data: array3<real>, x: int, y: int)
      requires z != 0.0
      requires splatWeights.Length == data.Length2
      requires 0 <= x < data.Length0 && 0 <= y < data.Length1
      modifies splatWeights, data
      ensures splatWeights[..] == Divided(old(splatWeights[..]), z)
      ensures forall k :: 0 <= k < data.Length2 ==> data[x, y, k] == splatWeights[k]
      ensures forall a, b, k ::
        (0 <= a < data.Length0 && 0 <= b < data.Length1 && 0 <= k < data.Length2
         && (a != x || b != y)) ==>
        data[a, b, k] == old(data[a, b, k])
    {
      ghost var raw := splatWeights[..];
      var i := 0;
      while i < splatWeights.Length
        invariant 0 <= i <= splatWeights.Length
        invariant forall k :: 0 <= k < i ==> splatWeights[k] == raw[k] / z
        invariant forall k :: i <= k < splatWeights.Length ==> splatWeights[k] == raw[k]
        invariant forall k :: 0 <= k < i ==> data[x, y, k] == splatWeights[k]
        invariant forall a, b, k ::
          (0 <= a < data.Length0 && 0 <= b < data.Length1 && 0 <= k < data.Length2
           && (a != x || b != y || i <= k)) ==>
          data[a, b, k] == old(data[a, b, k])
      {
        // divide by the sum fixed before the loop
        splatWeights[i] := splatWeights[i] / z;
        data[x, y, i] := splatWeights[i];
        i := i + 1;
      }
    }

    /** Whether every layer of splatmap cell (x, y) holds its weight. */
    predicate CellPainted(x: int, y: int, tie: TieRule)
      reads this, splatmapData
      requires terrain.alphamapLayers >= RequiredLayers && SplatmapShaped(splatmapData)
      requires 0 <= x < terrain.alphamapWidth && 0 <= y < terrain.alphamapHeight
    {
      forall i :: 0 <= i < splatmapData.Length2 ==> splatmapData[x, y, i] == SplatWeight(x, y, i, tie)
    }

    /** The weights of splatmap cell (x, y) for its scaled height `fHeight`:
        runs the threshold ladder on a fresh weight array, normalises it by
        its sum and writes every layer of the cell; no other cell changes. */
    method WeighCell(x: int, y: int, fHeight: real)
      requires terrain.alphamapLayers >= RequiredLayers && SplatmapShaped(splatmapData)
      requires 0 <= x < terrain.alphamapWidth && 0 <= y < terrain.alphamapHeight
      modifies splatmapData
      ensures forall i :: 0 <= i < splatmapData.Length2 ==>
        splatmapData[x, y, i] == CellWeights(fHeight, depth, terrain.alphamapLayers)[i]
      ensures forall a, b, i ::
        (0 <= a < splatmapData.Length0 && 0 <= b < splatmapData.Length1
         && 0 <= i < splatmapData.Length2 && (a != x || b != y)) ==>
        splatmapData[a, b, i] == old(splatmapData[a, b, i])
    {
      var layers := terrain.alphamapLayers;
      var splatWeights := ApplyRules(fHeight, depth, layers);
      var z := SumWeights(splatWeights);
      CellWeightsDivideRaw(fHeight, depth, layers);
      NormalizeInto(splatWeights, z, splatmapData, x, y);
    }

    /** Paints splatmap cell (x, y): samples the height, scales it by the
        texture scale and writes the cell's normalised weights for it; no
        other cell changes. (The script scales the height after setting up
        the initial weights, which do not depend on it.) */
    method RecolorCell(x: int, y: int, tie: TieRule)
      requires terrain.alphamapLayers >= RequiredLayers && SplatmapShaped(splatmapData)
      requires 0 <= x < terrain.alphamapWidth && 0 <= y < terrain.alphamapHeight
      modifies splatmapData
      ensures CellPainted(x, y, tie)
      ensures forall a, b, i ::
        (0 <= a < splatmapData.Length0 && 0 <= b < splatmapData.Length1
         && 0 <= i < splatmapData.Length2 && (a != x || b != y)) ==>
        splatmapData[a, b, i] == old(splatmapData[a, b, i])
    {
      var fHeight := SampledHeight(x, y, tie);
      fHeight := fHeight * textureScale;
      assert fHeight == ScaledHeight(x, y, tie);
      WeighCell(x, y, fHeight);
      assert forall i :: 0 <= i < splatmapData.Length2 ==>
        splatmapData[x, y, i] == SplatWeight(x, y, i, tie);
    }

    /** The two nested loops of the painting: columns inside rows, one cell
        at a time, until every cell of the splatmap is painted. */
    method PaintAll(tie: TieRule)
      requires terrain.alphamapLayers >= RequiredLayers && SplatmapShaped(splatmapData)
      modifies splatmapData
      ensures forall x, y :: 0 <= x < terrain.alphamapWidth && 0 <= y < terrain.alphamapHeight ==>
        CellPainted(x, y, tie)
    {
      var y := 0;
      while y < terrain.alphamapHeight
        invariant 0 <= y <= terrain.alphamapHeight
        invariant forall a, b :: 0 <= a < terrain.alphamapWidth && 0 <= b < y ==> CellPainted(a, b, tie)
      {
        var x := 0;
        while x < terrain.alphamapWidth
          invariant 0 <= x <= terrain.alphamapWidth
          invariant forall a, b :: 0 <= a < terrain.alphamapWidth && 0 <= b < y ==> CellPainted(a, b, tie)
          invariant forall a :: 0 <= a < x ==> CellPainted(a, y, tie)
        {
          label before:
          RecolorCell(x, y, tie);
          forall a, b | 0 <= a < terrain.alphamapWidth && 0 <= b <= y && (b < y || a < x)
            ensures CellPainted(a, b, tie)
          {
            assert old@before(CellPainted(a, b, tie));
            forall i | 0 <= i < splatmapData.Length2
              ensures splatmapData[a, b, i] == SplatWeight(a, b, i, tie)
            {
              assert splatmapData[a, b, i] == old@before(splatmapData[a, b, i]);
            }
          }
          x := x + 1;
        }
        y := y + 1;
      }
    }

    /** Paints a fresh splatmap: every (x, y, layer) entry gets the
        normalised weight of its cell. With fewer than three texture layers
        and a nonempty splatmap, the first cell's weight writes fall outside
        the weight array, so painting stops before any entry of the all-zero
        splatmap is written. */
    method RecolorMap(tie: TieRule) returns (outcome: Outcome)
      modifies this`splatmapData
      ensures fresh(splatmapData) && SplatmapShaped(splatmapData)
      ensures outcome == (if terrain.alphamapLayers < RequiredLayers
        && terrain.alphamapWidth > 0 && terrain.alphamapHeight > 0
        then IndexOutOfRange else Completed)
      ensures outcome == Completed && terrain.alphamapLayers >= RequiredLayers ==>
        forall x, y :: 0 <= x < terrain.alphamapWidth && 0 <= y < terrain.alphamapHeight ==>
          CellPainted(x, y, tie)
      ensures outcome == IndexOutOfRange ==>
        forall x, y, i ::
          (0 <= x < splatmapData.Length0 && 0 <= y < splatmapData.Length1
           && 0 <= i < splatmapData.Length2) ==> splatmapData[x, y, i] == 0.0
    {
      var layers := terrain.alphamapLayers;
      splatmapData := new real[terrain.alphamapWidth, terrain.alphamapHeight, layers]((_, _, _) => 0.0);
      if layers < RequiredLayers {
        // the first cell's writes of its initial weights overrun its weight
        // array, before any splatmap entry is written
        return if terrain.alphamapWidth > 0 && terrain.alphamapHeight > 0 then IndexOutOfRange else Completed;
      }
      PaintAll(tie);
      outcome := Completed;
    }
  }
}
