/** Helpers that open a label-multiset dataset as a multiscale pyramid of
    volatile cached images: the placeholder ("invalid") cell served while a
    cell has not been loaded, the guard that a cached image must have a
    volatile access type before it is wrapped, and the per-level geometry
    (scaled resolution, half-voxel shift and affine transform into physical
    space) of the pyramid. */
module VolatileHelpers {
  import opened Wrappers
  import opened CellGrids
  import Labels

  // ---------------------------------------------------------------------
  // Placeholder cells
  // ---------------------------------------------------------------------

  /** One entry of a label multiset: a label id and how often it occurs. */
  datatype LabelMultisetEntry = LabelMultisetEntry(id: bv64, count: int)

  /** The payload of one cell of a label-multiset image.  `data` holds, for
      each voxel, the offset of that voxel's entry list in `listData`;
      `listData` maps offsets to entry lists; `isValid` is false for a
      placeholder; `containedLabels` is the set of labels present in the cell. */
  datatype VolatileLabelMultisetArray = VolatileLabelMultisetArray(
    data: seq<int>,
    listData: map<int, seq<LabelMultisetEntry>>,
    isValid: bool,
    containedLabels: set<bv64>)

  /** A cell: its voxel extent, its minimum voxel coordinate and its payload. */
  datatype Cell = Cell(dims: seq<int>, min: seq<int>, payload: VolatileLabelMultisetArray)

  /** The placeholder cell for flat index `key` of `grid`
      (CreateInvalidVolatileLabelMultisetArray.createInvalid): the cell's
      extent is the grid's, every voxel points at the list at offset 0, and
      that list holds the single entry (INVALID, 1). */
  method CreateInvalid(grid: CellGrid, key: int) returns (cell: Cell)
    requires grid.Valid() && 0 <= key < grid.NumCells()
    ensures cell.min == grid.CellMin(grid.CellGridPositionFlat(key))
    ensures cell.dims == grid.CellDims(grid.CellGridPositionFlat(key))
    ensures forall d :: 0 <= d < |cell.dims| ==>
      0 <= cell.min[d] && 1 <= cell.dims[d] && cell.min[d] + cell.dims[d] <= grid.dimensions[d]
    ensures |cell.payload.data| == Product(cell.dims)
    ensures forall i :: 0 <= i < |cell.payload.data| ==> cell.payload.data[i] == 0
    ensures cell.payload.listData == map[0 := [LabelMultisetEntry(Labels.INVALID, 1)]]
    ensures !cell.payload.isValid
    ensures cell.payload.containedLabels == {Labels.INVALID}
  {
    var cellPosition := grid.CellGridPositionFlat(key);
    var cellMin := grid.CellMin(cellPosition);
    var cellDims := grid.CellDims(cellPosition);
    grid.CellInsideImage(key);
    ProductPositive(cellDims);

    var e := LabelMultisetEntry(Labels.INVALID, 1);
    var numEntities := Product(cellDims);

    var listData: map<int, seq<LabelMultisetEntry>> := map[0 := []];  // createListAt(listData, 0)
    var list := listData[0] + [e];                                     // add(e)
    assert list == [e];
    listData := listData[0 := list];
    var data := new int[numEntities](_ => 0);
    cell := Cell(cellDims, cellMin, VolatileLabelMultisetArray(data[..], listData, false, {Labels.INVALID}));
  }

  // ---------------------------------------------------------------------
  // Wrapping a cached image as a volatile one
  // ---------------------------------------------------------------------

  /** The access flags of a cached image's access type (AccessFlags). */
  datatype AccessFlag = Dirty | Volatile

  datatype LoadingStrategy = VolatileLoading | Blocking | Budgeted | DontLoad

  datatype CacheHints = CacheHints(loadingStrategy: LoadingStrategy, queuePriority: int, enqueueToFront: bool)

  /** A cached cell image: the dataset its loader reads, its grid and the
      flags of its access type. */
  datatype CachedCellImg = CachedCellImg(dataset: string, grid: CellGrid, accessFlags: set<AccessFlag>)

  /** A volatile view over a cached cell image: it shares the backing image's
      cache and grid, synthesises placeholders on `invalidGrid`, and loads
      with `hints`. */
  datatype VolatileView = VolatileView(backing: CachedCellImg, grid: CellGrid, invalidGrid: CellGrid, hints: CacheHints)

  datatype WrapError = NotVolatileAccess

  /** wrapCachedCellImg: refuses (IllegalArgumentException) a backing image
      whose access type is not volatile; otherwise builds a volatile view that
      shares the image's cache and grid. */
  function WrapCachedCellImg(img: CachedCellImg, invalidGrid: CellGrid, hints: CacheHints): (r: Result<VolatileView, WrapError>)
    ensures r.Failure? <==> Volatile !in img.accessFlags
    ensures r.Failure? ==> r.error == NotVolatileAccess
    ensures r.Success? ==>
      && r.value.backing == img && r.value.grid == img.grid
      && r.value.invalidGrid == invalidGrid && r.value.hints == hints
  {
    if Volatile !in img.accessFlags then Failure(NotVolatileAccess)
    else Success(VolatileView(img, img.grid, invalidGrid, hints))
  }

  // ---------------------------------------------------------------------
  // Affine transforms in three dimensions
  // ---------------------------------------------------------------------

  /** An affine map x |-> M x + t of 3-space, stored row by row as in
      AffineTransform3D.set: (m00 m01 m02 m03 / m10 ... / m20 ... m23), the
      last column being t. */
  datatype Affine3D = Affine3D(
    m00: real, m01: real, m02: real, m03: real,
    m10: real, m11: real, m12: real, m13: real,
    m20: real, m21: real, m22: real, m23: real)

  /** A point of 3-space. */
  datatype Vec3 = Vec3(x0: real, x1: real, x2: real)

  /** One row (c0 c1 c2 c3) of an affine map applied to `v`. */
  function Row(c0: real, c1: real, c2: real, c3: real, v: Vec3): real
  {
    c0 * v.x0 + c1 * v.x1 + c2 * v.x2 + c3
  }

  /** The image of `v` under `t` (AffineTransform3D.apply). */
  function Apply(t: Affine3D, v: Vec3): Vec3
  {
    Vec3(Row(t.m00, t.m01, t.m02, t.m03, v), Row(t.m10, t.m11, t.m12, t.m13, v), Row(t.m20, t.m21, t.m22, t.m23, v))
  }

  /** The translation by the first three entries of `s` (Translation3D). */
  function Translation3D(s: seq<real>): Affine3D
    requires |s| >= 3
  {
    Affine3D(1.0, 0.0, 0.0, s[0],
             0.0, 1.0, 0.0, s[1],
             0.0, 0.0, 1.0, s[2])
  }

  /** `a.concatenate(b)`: the map that applies `b` first and then `a`
      (ConcatenateTranslation proves this for a translation `b`). */
  function Concatenate(a: Affine3D, b: Affine3D): Affine3D
  {
    Affine3D(
      a.m00 * b.m00 + a.m01 * b.m10 + a.m02 * b.m20,
      a.m00 * b.m01 + a.m01 * b.m11 + a.m02 * b.m21,
      a.m00 * b.m02 + a.m01 * b.m12 + a.m02 * b.m22,
      a.m00 * b.m03 + a.m01 * b.m13 + a.m02 * b.m23 + a.m03,
      a.m10 * b.m00 + a.m11 * b.m10 + a.m12 * b.m20,
      a.m10 * b.m01 + a.m11 * b.m11 + a.m12 * b.m21,
      a.m10 * b.m02 + a.m11 * b.m12 + a.m12 * b.m22,
      a.m10 * b.m03 + a.m11 * b.m13 + a.m12 * b.m23 + a.m13,
      a.m20 * b.m00 + a.m21 * b.m10 + a.m22 * b.m20,
      a.m20 * b.m01 + a.m21 * b.m11 + a.m22 * b.m21,
      a.m20 * b.m02 + a.m21 * b.m12 + a.m22 * b.m22,
      a.m20 * b.m03 + a.m21 * b.m13 + a.m22 * b.m23 + a.m23)
  }

  /** Translation3D moves every point by the first three entries of `s`. */
  lemma TranslationMaps(s: seq<real>, v: Vec3)
    requires |s| >= 3
    ensures Apply(Translation3D(s), v) == Vec3(v.x0 + s[0], v.x1 + s[1], v.x2 + s[2])
  {
  }

  /** One row of `a` concatenated with a translation by (s0, s1, s2). */
  lemma RowAfterTranslation(c0: real, c1: real, c2: real, c3: real, s0: real, s1: real, s2: real, v: Vec3)
    ensures Row(c0 * 1.0 + c1 * 0.0 + c2 * 0.0, c0 * 0.0 + c1 * 1.0 + c2 * 0.0, c0 * 0.0 + c1 * 0.0 + c2 * 1.0,
                c0 * s0 + c1 * s1 + c2 * s2 + c3, v)
         == Row(c0, c1, c2, c3, Vec3(v.x0 + s0, v.x1 + s1, v.x2 + s2))
  {
  }

  /** Concatenating a translation on the right translates first: the
      concatenation maps v to where `a` maps v + s. */
  lemma ConcatenateTranslation(a: Affine3D, s: seq<real>, v: Vec3)
    requires |s| >= 3
    ensures Apply(Concatenate(a, Translation3D(s)), v) == Apply(a, Vec3(v.x0 + s[0], v.x1 + s[1], v.x2 + s[2]))
  {
    var t, w := Concatenate(a, Translation3D(s)), Vec3(v.x0 + s[0], v.x1 + s[1], v.x2 + s[2]);
    assert Apply(t, v).x0 == Apply(a, w).x0 by {
      RowAfterTranslation(a.m00, a.m01, a.m02, a.m03, s[0], s[1], s[2], v);
    }
    assert Apply(t, v).x1 == Apply(a, w).x1 by {
      RowAfterTranslation(a.m10, a.m11, a.m12, a.m13, s[0], s[1], s[2], v);
    }
    assert Apply(t, v).x2 == Apply(a, w).x2 by {
      RowAfterTranslation(a.m20, a.m21, a.m22, a.m23, s[0], s[1], s[2], v);
    }
  }

  // ---------------------------------------------------------------------
  // Pyramid geometry
  // ---------------------------------------------------------------------

  /** The value of a `downsamplingFactors` attribute, {1, 1, 1} when it is absent. */
  function FactorsOrDefault(attribute: Option<seq<real>>): (f: seq<real>)
    ensures attribute.None? ==> f == [1.0, 1.0, 1.0]
    ensures attribute.Some? ==> f == attribute.value
  {
    attribute.GetOr([1.0, 1.0, 1.0])
  }

  /** Why the pyramid could not be opened.  `IndexOutOfBounds` stands for the
      array index error the loader meets at a level whose factor array is
      shorter than three or longer than the resolution or the level-0
      factors, or when the offset has fewer than three entries;
      `ZeroFactor` for a zero divisor in the shift. */
  datatype LoadError = NoScaleDatasets | IndexOutOfBounds(level: nat) | ZeroFactor(level: nat)

  /** The conditions under which the loader computes a level's geometry
      without an index error or a zero divisor. */
  predicate FactorsWellFormed(f0: seq<real>, f: seq<real>, resolution: seq<real>)
  {
    && 3 <= |f| <= |resolution| && |f| <= |f0|
    && forall d :: 0 <= d < |f| ==> f[d] != 0.0 && f0[d] != 0.0
  }

  /** The error, if any, that level `level` with factors `f` meets, given the
      level-0 factors `f0`, the base resolution and the offset. */
  function LevelError(f0: seq<real>, f: seq<real>, resolution: seq<real>, offset: seq<real>, level: nat)
    : (e: Option<LoadError>)
    ensures e.None? <==> FactorsWellFormed(f0, f, resolution) && |offset| >= 3
    ensures e.Some? ==> e.value.IndexOutOfBounds? || e.value.ZeroFactor?
    ensures e.Some? ==> e.value.level == level
    ensures |offset| < 3 ==> e == Some(IndexOutOfBounds(level))
    // An index error exactly when an array is too short or the factors too long; a zero
    // divisor only once every length fits.
    ensures e.Some? ==>
      (e.value.IndexOutOfBounds? <==> !(3 <= |f| <= |resolution| && |f| <= |f0| && |offset| >= 3))
  {
    if !(3 <= |f| <= |resolution| && |f| <= |f0| && |offset| >= 3) then Some(IndexOutOfBounds(level))
    else if exists d :: 0 <= d < |f| && (f[d] == 0.0 || f0[d] == 0.0) then Some(ZeroFactor(level))
    else None
  }

  /** The level's resolution, axis by axis: factor times base resolution. */
  function ScaledResolution(f: seq<real>, resolution: seq<real>): (s: seq<real>)
    requires |f| <= |resolution|
  {
    seq(|f|, d requires 0 <= d < |f| => f[d] * resolution[d])
  }

  /** The half-voxel shift that aligns the level's voxel centres with those of level 0. */
  function Shift(f0: seq<real>, f: seq<real>): (s: seq<real>)
    requires |f| <= |f0| && forall d :: 0 <= d < |f| ==> f[d] != 0.0 && f0[d] != 0.0
  {
    seq(|f|, d requires 0 <= d < |f| => 0.5 / f0[d] - 0.5 / f[d])
  }

  /** The level's transform: scale by the scaled resolution and translate by
      `offset`, applied after the translation by the shift. */
  function LevelTransform(f0: seq<real>, f: seq<real>, resolution: seq<real>, offset: seq<real>): Affine3D
    requires FactorsWellFormed(f0, f, resolution) && |offset| >= 3
  {
    Concatenate(ScaleAndOffset(ScaledResolution(f, resolution), offset), Translation3D(Shift(f0, f)))
  }

  /** The diagonal scaling by `s` followed by the translation by `offset`
      (the AffineTransform3D.set call of the loader). */
  function ScaleAndOffset(s: seq<real>, offset: seq<real>): Affine3D
    requires |s| >= 3 && |offset| >= 3
  {
    Affine3D(s[0], 0.0, 0.0, offset[0],
             0.0, s[1], 0.0, offset[1],
             0.0, 0.0, s[2], offset[2])
  }

  /** The loader's `set` call scales each axis by `s` and then adds `offset`. */
  lemma ScaleAndOffsetMaps(s: seq<real>, offset: seq<real>, v: Vec3)
    requires |s| >= 3 && |offset| >= 3
    ensures Apply(ScaleAndOffset(s, offset), v)
         == Vec3(s[0] * v.x0 + offset[0], s[1] * v.x1 + offset[1], s[2] * v.x2 + offset[2])
  {
  }

  /** The inner loop of the pyramid loader: scaled resolution and shift, axis by axis. */
  method LevelGeometry(f0: seq<real>, f: seq<real>, resolution: seq<real>)
    returns (scaledResolution: array<real>, shift: array<real>)
    requires |f| <= |resolution| && |f| <= |f0|
    requires forall d :: 0 <= d < |f| ==> f[d] != 0.0 && f0[d] != 0.0
    ensures scaledResolution.Length == |f| && shift.Length == |f|
    ensures forall d :: 0 <= d < |f| ==> scaledResolution[d] == f[d] * resolution[d]
    ensures forall d :: 0 <= d < |f| ==> shift[d] == 0.5 / f0[d] - 0.5 / f[d]
    ensures scaledResolution[..] == ScaledResolution(f, resolution) && shift[..] == Shift(f0, f)
  {
    scaledResolution := new real[|f|];
    shift := new real[|f|];
    for d := 0 to |f|
      invariant forall k :: 0 <= k < d ==> scaledResolution[k] == f[k] * resolution[k]
      invariant forall k :: 0 <= k < d ==> shift[k] == 0.5 / f0[k] - 0.5 / f[k]
    {
      scaledResolution[d] := f[d] * resolution[d];
      shift[d] := 0.5 / f0[d] - 0.5 / f[d];
    }
    assert |ScaledResolution(f, resolution)| == |f| && |Shift(f0, f)| == |f|;
    assert forall k :: 0 <= k < |f| ==> scaledResolution[..][k] == ScaledResolution(f, resolution)[k];
    assert forall k :: 0 <= k < |f| ==> shift[..][k] == Shift(f0, f)[k];
  }

  /** Per-level dataset attributes read from the store: image and block size. */
  datatype DatasetAttributes = DatasetAttributes(dimensions: seq<int>, blockSize: seq<int>)

  /** Levels 0 .. k - 1 all have well-formed factors (k <= number of levels). */
  predicate LevelsWellFormed(factorAttributes: seq<Option<seq<real>>>, resolution: seq<real>, k: nat)
    requires 0 < |factorAttributes| && k <= |factorAttributes|
  {
    forall i :: 0 <= i < k ==>
      FactorsWellFormed(FactorsOrDefault(factorAttributes[0]), FactorsOrDefault(factorAttributes[i]), resolution)
  }

  /** The cached image of one level, with a volatile access type. */
  function LevelImage(dataset: string, scaleDataset: string, attributes: DatasetAttributes): CachedCellImg
  {
    CachedCellImg(dataset + "/" + scaleDataset, CellGrid(attributes.dimensions, attributes.blockSize), {Volatile})
  }

  /** loadMultiscaleMultisets. The listed scale datasets (already sorted), each
      level's dataset attributes and optional `downsamplingFactors` attribute
      are inputs.  On success the three arrays have one entry per scale
      dataset, in listing order; on failure the error names the first level
      that fails, and no pyramid is returned. */
  method LoadMultiscaleMultisets(
    dataset: string,
    scaleDatasets: seq<string>,
    attributes: seq<DatasetAttributes>,
    factorAttributes: seq<Option<seq<real>>>,
    resolution: seq<real>,
    offset: seq<real>,
    priority: int)
    returns (err: Option<LoadError>, raw: array<CachedCellImg>, vraw: array<VolatileView>, transforms: array<Affine3D>)
    requires |attributes| == |scaleDatasets| && |factorAttributes| == |scaleDatasets|
    ensures |scaleDatasets| == 0 ==> err == Some(NoScaleDatasets)
    ensures |scaleDatasets| > 0 ==>
      && (err.None? <==> |offset| >= 3 && LevelsWellFormed(factorAttributes, resolution, |scaleDatasets|))
      && (err.Some? ==>
            && !err.value.NoScaleDatasets? && err.value.level < |scaleDatasets|
            && err == LevelError(FactorsOrDefault(factorAttributes[0]),
                                 FactorsOrDefault(factorAttributes[err.value.level]), resolution, offset,
                                 err.value.level)
            && LevelsWellFormed(factorAttributes, resolution, err.value.level))
    ensures |scaleDatasets| > 0 && |offset| < 3 ==> err == Some(IndexOutOfBounds(0))
    ensures err.None? ==>
      && raw.Length == |scaleDatasets| && vraw.Length == |scaleDatasets| && transforms.Length == |scaleDatasets|
      && |offset| >= 3 && LevelsWellFormed(factorAttributes, resolution, |scaleDatasets|)
      && (forall i :: 0 <= i < |scaleDatasets| ==> raw[i] == LevelImage(dataset, scaleDatasets[i], attributes[i]))
      && (forall i :: 0 <= i < |scaleDatasets| ==>
            vraw[i] == VolatileView(raw[i], raw[i].grid, raw[i].grid, CacheHints(VolatileLoading, priority, false)))
      && (forall i :: 0 <= i < |scaleDatasets| ==>
            transforms[i] == LevelTransform(FactorsOrDefault(factorAttributes[0]),
                                            FactorsOrDefault(factorAttributes[i]), resolution, offset))
  {
    var n := |scaleDatasets|;
    raw := new CachedCellImg[n];
    vraw := new VolatileView[n];
    transforms := new Affine3D[n];
    if n == 0 {
      return Some(NoScaleDatasets), raw, vraw, transforms;
    }
    var initialFactors := FactorsOrDefault(factorAttributes[0]);
    var hints := CacheHints(VolatileLoading, priority, false);
    for scale := 0 to n
      invariant scale > 0 ==> |offset| >= 3
      invariant LevelsWellFormed(factorAttributes, resolution, scale)
      invariant forall i :: 0 <= i < scale ==> raw[i] == LevelImage(dataset, scaleDatasets[i], attributes[i])
      invariant forall i :: 0 <= i < scale ==>
        vraw[i] == VolatileView(LevelImage(dataset, scaleDatasets[i], attributes[i]),
                                LevelImage(dataset, scaleDatasets[i], attributes[i]).grid,
                                LevelImage(dataset, scaleDatasets[i], attributes[i]).grid, hints)
      invariant forall i :: 0 <= i < scale ==>
        transforms[i] == LevelTransform(initialFactors, FactorsOrDefault(factorAttributes[i]), resolution, offset)
    {
      var levelError := LoadLevel(dataset, scaleDatasets[scale], attributes[scale], initialFactors,
                                  factorAttributes[scale], resolution, offset, scale, hints, raw, vraw, transforms);
      if levelError.Some? {
        return levelError, raw, vraw, transforms;
      }
    }
    err := None;
  }

  /** One iteration of the loader's loop over scale levels: stores the
      level's cached image and its volatile view at index `level`, then reads
      the level's factors and, unless the level meets an error, stores its
      transform there too.  No other entry of the three arrays changes. */
  method LoadLevel(
    dataset: string, scaleDataset: string, attributes: DatasetAttributes,
    initialFactors: seq<real>, factorAttribute: Option<seq<real>>,
    resolution: seq<real>, offset: seq<real>, level: nat, hints: CacheHints,
    raw: array<CachedCellImg>, vraw: array<VolatileView>, transforms: array<Affine3D>)
    returns (err: Option<LoadError>)
    requires level < raw.Length && level < vraw.Length && level < transforms.Length
    modifies raw, vraw, transforms
    ensures raw[level] == LevelImage(dataset, scaleDataset, attributes)
    ensures vraw[level] == VolatileView(raw[level], raw[level].grid, raw[level].grid, hints)
    ensures err == LevelError(initialFactors, FactorsOrDefault(factorAttribute), resolution, offset, level)
    ensures err.None? ==>
      && FactorsWellFormed(initialFactors, FactorsOrDefault(factorAttribute), resolution) && |offset| >= 3
      && transforms[level] == LevelTransform(initialFactors, FactorsOrDefault(factorAttribute), resolution, offset)
    ensures forall i :: 0 <= i < raw.Length && i != level ==> raw[i] == old(raw[i])
    ensures forall i :: 0 <= i < vraw.Length && i != level ==> vraw[i] == old(vraw[i])
    ensures forall i :: 0 <= i < transforms.Length && i != level ==> transforms[i] == old(transforms[i])
  {
    var cachedImg := LevelImage(dataset, scaleDataset, attributes);
    raw[level] := cachedImg;
    vraw[level] := WrapCachedCellImg(cachedImg, cachedImg.grid, hints).value;

    var downsamplingFactors := FactorsOrDefault(factorAttribute);
    err := LevelError(initialFactors, downsamplingFactors, resolution, offset, level);
    if err.Some? {
      return;
    }
    var scaledResolution, shift := LevelGeometry(initialFactors, downsamplingFactors, resolution);
    transforms[level] := Concatenate(ScaleAndOffset(scaledResolution[..], offset), Translation3D(shift[..]));
  }

  // ---------------------------------------------------------------------
  // What the pyramid geometry means
  // ---------------------------------------------------------------------

  /** Where a level with factor `fd` (level-0 factor `f0d`), base
      resolution `rd` and offset `od` puts voxel coordinate `xd` on one axis:
      scaled resolution times the coordinate plus the shift, plus the offset. */
  function AxisMap(f0d: real, fd: real, rd: real, od: real, xd: real): real
    requires f0d != 0.0 && fd != 0.0
  {
    fd * rd * (xd + (0.5 / f0d - 0.5 / fd)) + od
  }

  /** The scale-and-offset map after the translation by `sh`, written out. */
  lemma ScaleAfterShift(s: seq<real>, offset: seq<real>, sh: seq<real>)
    requires |s| >= 3 && |offset| >= 3 && |sh| >= 3
    ensures Concatenate(ScaleAndOffset(s, offset), Translation3D(sh))
         == Affine3D(s[0], 0.0, 0.0, s[0] * sh[0] + offset[0],
                     0.0, s[1], 0.0, s[1] * sh[1] + offset[1],
                     0.0, 0.0, s[2], s[2] * sh[2] + offset[2])
  {
  }

  /** One axis of a level's transform. */
  lemma AxisStep(sd: real, shd: real, f0d: real, fd: real, rd: real, od: real, xd: real)
    requires f0d != 0.0 && fd != 0.0
    requires sd == fd * rd && shd == 0.5 / f0d - 0.5 / fd
    ensures Row(sd, 0.0, 0.0, sd * shd + od, Vec3(xd, 0.0, 0.0)) == AxisMap(f0d, fd, rd, od, xd)
  {
  }

  /** Each level's transform maps a voxel coordinate v to
      scaledResolution * (v + shift) + offset, axis by axis. */
  lemma LevelTransformMaps(f0: seq<real>, f: seq<real>, resolution: seq<real>, offset: seq<real>, v: Vec3)
    requires FactorsWellFormed(f0, f, resolution) && |offset| >= 3
    ensures Apply(LevelTransform(f0, f, resolution, offset), v)
         == Vec3(AxisMap(f0[0], f[0], resolution[0], offset[0], v.x0),
                 AxisMap(f0[1], f[1], resolution[1], offset[1], v.x1),
                 AxisMap(f0[2], f[2], resolution[2], offset[2], v.x2))
  {
    var s, sh := ScaledResolution(f, resolution), Shift(f0, f);
    ScaleAfterShift(s, offset, sh);
    AxisStep(s[0], sh[0], f0[0], f[0], resolution[0], offset[0], v.x0);
    AxisStep(s[1], sh[1], f0[1], f[1], resolution[1], offset[1], v.x1);
    AxisStep(s[2], sh[2], f0[2], f[2], resolution[2], offset[2], v.x2);
  }

  /** The shift on an axis is zero exactly when the level's factor on that
      axis equals level 0's; so level 0 itself is never shifted. */
  lemma ShiftZeroIffSameFactor(f0: seq<real>, f: seq<real>, d: int)
    requires |f| <= |f0| && forall k :: 0 <= k < |f| ==> f[k] != 0.0 && f0[k] != 0.0
    requires 0 <= d < |f|
    ensures Shift(f0, f)[d] == 0.0 <==> f[d] == f0[d]
  {
    if Shift(f0, f)[d] == 0.0 {
      assert 0.5 / f0[d] == 0.5 / f[d];
      assert f[d] * (0.5 / f0[d]) == f[d] * (0.5 / f[d]) == 0.5;
      assert f[d] * 0.5 == 0.5 * f0[d];
    }
  }

  /** When level 0 is not downsampled, the centre of voxel v of a level with
      factors f lands where level 0 puts the mean position of the f voxels it
      covers, f * v + (f - 1) / 2: the pyramid levels line up. */
  lemma LevelCentresAlign(f: seq<real>, resolution: seq<real>, offset: seq<real>, v: Vec3)
    requires FactorsWellFormed([1.0, 1.0, 1.0], f, resolution) && |offset| >= 3
    ensures Apply(LevelTransform([1.0, 1.0, 1.0], f, resolution, offset), v)
         == Apply(LevelTransform([1.0, 1.0, 1.0], [1.0, 1.0, 1.0], resolution, offset),
                  Vec3(f[0] * v.x0 + (f[0] - 1.0) / 2.0, f[1] * v.x1 + (f[1] - 1.0) / 2.0,
                       f[2] * v.x2 + (f[2] - 1.0) / 2.0))
  {
    var f0 := [1.0, 1.0, 1.0];
    var y := Vec3(f[0] * v.x0 + (f[0] - 1.0) / 2.0, f[1] * v.x1 + (f[1] - 1.0) / 2.0, f[2] * v.x2 + (f[2] - 1.0) / 2.0);
    LevelTransformMaps(f0, f, resolution, offset, v);
    LevelTransformMaps(f0, f0, resolution, offset, y);
    AxisCentresAlign(f[0], resolution[0], offset[0], v.x0);
    AxisCentresAlign(f[1], resolution[1], offset[1], v.x1);
    AxisCentresAlign(f[2], resolution[2], offset[2], v.x2);
  }

  /** LevelCentresAlign on one axis. */
  lemma AxisCentresAlign(f: real, r: real, o: real, x: real)
    requires f != 0.0
    ensures AxisMap(1.0, f, r, o, x) == AxisMap(1.0, 1.0, r, o, f * x + (f - 1.0) / 2.0)
  {
    assert f * (0.5 / f) == 0.5;
    assert f * r * (x + (0.5 - 0.5 / f)) == r * (f * x + f * 0.5 - f * (0.5 / f));
  }

  /** A pyramid whose level 1 declares factors [2, 2, 1] over a base
      resolution [4, 4, 40]: level 1 has resolution [8, 8, 40] and a shift of
      a quarter voxel on axes 0 and 1 only. */
  lemma ScaledResolutionExample()
    ensures ScaledResolution([2.0, 2.0, 1.0], [4.0, 4.0, 40.0]) == [8.0, 8.0, 40.0]
    ensures Shift([1.0, 1.0, 1.0], [2.0, 2.0, 1.0]) == [0.25, 0.25, 0.0]
  {
  }
}
