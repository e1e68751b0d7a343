# Paintera: volatile label-multiset pyramids, highlighting colour streams, intersecting source states

This project is a Dafny model of three parts of Paintera, with proofs about that model.

- **Opening a label-multiset dataset** (`volatile_helpers.dfy`, module `VolatileHelpers`). A dataset is opened as a multiscale pyramid of volatile cached cell images. The model covers:
  - the placeholder ("invalid") cell served for a cell that has not been loaded yet;
  - the check that a cached image has a volatile access type before it is wrapped;
  - the loader's loop over scale levels, which builds every level's cached image, its volatile view and its affine transform into physical space. The transform is built from the level's downsampling factors, the base resolution and the offset.

  The loader's error paths are modelled as an error result. These are an empty scale list and the index errors that malformed factor or offset arrays cause. The lemmas say what the geometry means:
  - every level transform maps a voxel to `factor * resolution * (v + shift) + offset` on each axis;
  - the shift vanishes exactly where a level's factor equals level 0's;
  - when level 0 is not downsampled, a coarse voxel's centre lands on the mean of the fine voxels it covers.
- **Highlighting ARGB stream** (`argb_stream.dfy`, class `Stream.HighlightingArgbStream`). This is the state object behind label colouring:
  - a seed;
  - four alpha values kept in the top byte of a 32-bit word;
  - a colour cache, the active fragment ids and the fragment-to-segment assignment.

  Each setter's contract states the new state and whether listeners were notified. The number of notifications is kept in the field `stateChanges`.
- **Deserializing an intersecting source state** (`intersecting_deserializer.dfy`). The deserializer checks the saved `dependsOn` array and the two source states it names, in a fixed order. It then builds the state or reports which check failed.

Some files hold the parts of imglib2 that these models rely on:
- `cell_grid.dfy` models `CellGrid` and `IntervalIndexer`: cells per axis, border cells, and the conversion between flat indices and positions, proved to be a bijection.
- `labels.dfy` holds the `Label` constants.
- `wrappers.dfy` holds `Option` and `Result`.

Java `long` ids are `bv64` and Java `int` colour and alpha words are `bv32`, so shifts, masks and the seed's wrap-around follow the JVM. The `>>>` in the alpha getters is the unsigned `>>` on `bv32`. Java `double` is modelled as `real`.

## Model

| member | source | states |
|---|---|---|
| VolatileHelpers.CreateInvalid | src/main/java/org/janelia/saalfeldlab/paintera/ui/opendialog/VolatileHelpers.java:98-116 | The placeholder cell for key `k` has the minimum and extent of grid cell `k`. It lies inside the image and has one data slot per voxel, all pointing at offset 0. The list at offset 0 is the single entry (INVALID, 1). The array is marked invalid and its contained labels are exactly {INVALID}. |
| VolatileHelpers.WrapCachedCellImg | src/main/java/org/janelia/saalfeldlab/paintera/ui/opendialog/VolatileHelpers.java:66-84 | Wrapping fails exactly when the cached image's access flags lack Volatile. On success the view is backed by that image with its grid and the given hints. |
| VolatileHelpers.FactorsOrDefault | src/main/java/org/janelia/saalfeldlab/paintera/ui/opendialog/VolatileHelpers.java:166-168 | An absent `downsamplingFactors` attribute reads as {1, 1, 1}. A present one is used as stored. |
| VolatileHelpers.LevelError | src/main/java/org/janelia/saalfeldlab/paintera/ui/opendialog/VolatileHelpers.java:171-187 | A level fails exactly when its factors are not well formed or the offset is shorter than three. Well formed means at least three factors, no more than the resolution or the level-0 factors have, and none zero. The error names the level. It is an index error exactly when an array is too short or the factors too long (a short offset included), and a zero factor is reported only once every length fits. |
| VolatileHelpers.LevelGeometry | src/main/java/org/janelia/saalfeldlab/paintera/ui/opendialog/VolatileHelpers.java:171-178 | The loop fills one entry per factor axis. Entry `d` is `f[d] * resolution[d]` and `0.5 / f0[d] - 0.5 / f[d]`, so the arrays equal `ScaledResolution` and `Shift`. |
| VolatileHelpers.LoadMultiscaleMultisets | src/main/java/org/janelia/saalfeldlab/paintera/ui/opendialog/VolatileHelpers.java:120-191 | An empty scale list is an error. Otherwise loading succeeds exactly when the offset has three entries and every level's factors are well formed. On failure the error is the first failing level's and every earlier level is well formed; a short offset fails at level 0. On success there is one entry per level, in listing order: the cached image of `dataset/scale`, its volatile view with hints (VOLATILE, priority, false), and the transform `LevelTransform`. |
| VolatileHelpers.LoadLevel | src/main/java/org/janelia/saalfeldlab/paintera/ui/opendialog/VolatileHelpers.java:142-188 | One loop iteration stores the level's cached image and volatile view at the level's index. It computes the level's error, and when there is none it stores the level's transform. Every other array entry is unchanged. |
| VolatileHelpers.TranslationMaps | src/main/java/org/janelia/saalfeldlab/paintera/ui/opendialog/VolatileHelpers.java:187 | `Translation3D(shift)` moves every point by the first three entries of the shift. |
| VolatileHelpers.ScaleAndOffsetMaps | src/main/java/org/janelia/saalfeldlab/paintera/ui/opendialog/VolatileHelpers.java:182-186 | The loader's `set` call maps `v` to `s[d] * v[d] + offset[d]` on each axis `d`. |
| VolatileHelpers.ConcatenateTranslation | src/main/java/org/janelia/saalfeldlab/paintera/ui/opendialog/VolatileHelpers.java:187 | `a.concatenate(Translation3D(s))` maps `v` to where `a` maps `v + s`: the translation is applied first. |
| VolatileHelpers.ScaleAfterShift | src/main/java/org/janelia/saalfeldlab/paintera/ui/opendialog/VolatileHelpers.java:182-187 | Scaling and offsetting after the translation by `sh` is the diagonal matrix with translation column `s * sh + offset`. |
| VolatileHelpers.LevelTransformMaps | src/main/java/org/janelia/saalfeldlab/paintera/ui/opendialog/VolatileHelpers.java:171-187 | A level's transform sends voxel `v` to `f[d] * resolution[d] * (v[d] + shift[d]) + offset[d]` on each axis `d`. |
| VolatileHelpers.ShiftZeroIffSameFactor | src/main/java/org/janelia/saalfeldlab/paintera/ui/opendialog/VolatileHelpers.java:177 | The shift on an axis is zero if and only if the level's factor there equals level 0's. |
| VolatileHelpers.LevelCentresAlign | src/main/java/org/janelia/saalfeldlab/paintera/ui/opendialog/VolatileHelpers.java:174-187 | With level-0 factors {1, 1, 1}, a level with factors `f` maps voxel `v` to the point where level 0 maps `f * v + (f - 1) / 2`. That is the mean of the fine voxels the coarse one covers. |
| VolatileHelpers.AxisCentresAlign | src/main/java/org/janelia/saalfeldlab/paintera/ui/opendialog/VolatileHelpers.java:176-177 | The same alignment on a single axis. |
| VolatileHelpers.ScaledResolutionExample | src/main/java/org/janelia/saalfeldlab/paintera/ui/opendialog/VolatileHelpers.java:174-178 | Factors [2, 2, 1] over resolution [4, 4, 40] give resolution [8, 8, 40] and a shift of [0.25, 0.25, 0]. |
| CellGrids.CellGrid.CellGridPositionFlat | src/main/java/org/janelia/saalfeldlab/paintera/ui/opendialog/VolatileHelpers.java:101 | The grid position of flat index `k` has one coordinate per axis and encodes back to `k`. |
| CellGrids.CellGrid.CellExtent | src/main/java/org/janelia/saalfeldlab/paintera/ui/opendialog/VolatileHelpers.java:104 | At any grid position the cell's minimum and extent put it inside the image, with 1 to the nominal cell size voxels per axis. The last cell of an axis ends exactly at the image boundary. |
| CellGrids.CellGrid.CellInsideImage | src/main/java/org/janelia/saalfeldlab/paintera/ui/opendialog/VolatileHelpers.java:100-104 | Every in-range flat cell index names a grid position inside the grid. That cell starts inside the image, has between 1 and the nominal cell size voxels per axis, and ends inside the image. |
| CellGrids.IndexToPositionInGrid | src/main/java/org/janelia/saalfeldlab/paintera/ui/opendialog/VolatileHelpers.java:100-101 | Decoding an index below the number of cells gives a position inside the grid. |
| CellGrids.PositionToIndexOfIndexToPosition | src/main/java/org/janelia/saalfeldlab/paintera/ui/opendialog/VolatileHelpers.java:100-101 | Encoding the decoded position of any non-negative index gives the index back. |
| CellGrids.PositionToIndexInRange | src/main/java/org/janelia/saalfeldlab/paintera/ui/opendialog/VolatileHelpers.java:100-101 | Every grid position encodes to an index below the number of cells. |
| CellGrids.IndexToPositionOfPositionToIndex | src/main/java/org/janelia/saalfeldlab/paintera/ui/opendialog/VolatileHelpers.java:100-101 | Decoding the index of any grid position gives the position back. With the two lemmas above, flat indices and grid positions are in bijection. |
| CellGrids.CellGrid.GridDimensions | src/main/java/org/janelia/saalfeldlab/paintera/ui/opendialog/VolatileHelpers.java:100-104 | Every axis of a valid grid has at least one cell. |
| Stream.ComposeArgb | src/main/java/org/janelia/saalfeldlab/paintera/stream/AbstractHighlightingARGBStream.java:123-126 | Take channels below 256 and an alpha word whose low three bytes are clear. Red, green and blue can then be read back from bytes 2, 1 and 0 of the packed colour, and the alpha from its top byte. |
| Stream.AlphaWord | src/main/java/org/janelia/saalfeldlab/paintera/stream/AbstractHighlightingARGBStream.java:191 | The stored word's top byte is the argument masked to a byte, and its low three bytes are zero. |
| Stream.HighlightingArgbStream.constructor | src/main/java/org/janelia/saalfeldlab/paintera/stream/AbstractHighlightingARGBStream.java:44-81 | A new stream has seed 0, alphas 0x20, 0xd0, 0x80 and 0 (default, active fragment, active segment, invalid segment), an empty cache, colouring by fragment and no notifications. |
| Stream.HighlightingArgbStream.Argb | src/main/java/org/janelia/saalfeldlab/paintera/stream/AbstractHighlightingARGBStream.java:136-141 | The transparent label is colour 0 whatever the state. Every other id gets the generator's colour for the current colouring mode and the stream's current seed, alphas, active ids and assignment. |
| Stream.HighlightingArgbStream.PackedAlphaIsAlpha | src/main/java/org/janelia/saalfeldlab/paintera/stream/AbstractHighlightingARGBStream.java:123-126 | For a stream whose alpha words use only their top byte, a colour packed with the alpha word carries exactly that word in its top byte, and the top byte reads back as `getAlpha()`. |
| Stream.HighlightingArgbStream.IsActiveFragment | src/main/java/org/janelia/saalfeldlab/paintera/stream/AbstractHighlightingARGBStream.java:101-110 | True if and only if the id is one of the active ids. |
| Stream.HighlightingArgbStream.IsActiveSegment | src/main/java/org/janelia/saalfeldlab/paintera/stream/AbstractHighlightingARGBStream.java:112-121 | True if and only if some active id is assigned to the same segment as the id. |
| Stream.ActiveFragmentIsActiveSegment | src/main/java/org/janelia/saalfeldlab/paintera/stream/AbstractHighlightingARGBStream.java:101-121 | An active fragment always belongs to an active segment. |
| Stream.HighlightingArgbStream.SetSeed | src/main/java/org/janelia/saalfeldlab/paintera/stream/AbstractHighlightingARGBStream.java:148-155 | The seed becomes the argument. Listeners are notified once if and only if it changed. |
| Stream.HighlightingArgbStream.IncSeed | src/main/java/org/janelia/saalfeldlab/paintera/stream/AbstractHighlightingARGBStream.java:160-163 | The seed goes up by one modulo 2^64, and listeners are always notified once. |
| Stream.HighlightingArgbStream.DecSeed | src/main/java/org/janelia/saalfeldlab/paintera/stream/AbstractHighlightingARGBStream.java:168-171 | The seed goes down by one modulo 2^64, and listeners are always notified once. |
| Stream.HighlightingArgbStream.GetAlpha | src/main/java/org/janelia/saalfeldlab/paintera/stream/AbstractHighlightingARGBStream.java:229-232 | The alpha read back is in [0, 255]. |
| Stream.HighlightingArgbStream.GetActiveSegmentAlpha | src/main/java/org/janelia/saalfeldlab/paintera/stream/AbstractHighlightingARGBStream.java:234-237 | In [0, 255]. |
| Stream.HighlightingArgbStream.GetInvalidSegmentAlpha | src/main/java/org/janelia/saalfeldlab/paintera/stream/AbstractHighlightingARGBStream.java:239-242 | In [0, 255]. |
| Stream.HighlightingArgbStream.GetActiveFragmentAlpha | src/main/java/org/janelia/saalfeldlab/paintera/stream/AbstractHighlightingARGBStream.java:244-247 | In [0, 255]. |
| Stream.HighlightingArgbStream.SetAlpha | src/main/java/org/janelia/saalfeldlab/paintera/stream/AbstractHighlightingARGBStream.java:187-194 | Afterwards the getter reads the argument masked to a byte, and only the top byte is used. When the argument already equals the getter, nothing changes and no one is notified. Any other argument, even one that masks to the current value, stores `(a & 0xff) << 24` and notifies once. |
| Stream.HighlightingArgbStream.SetActiveSegmentAlpha | src/main/java/org/janelia/saalfeldlab/paintera/stream/AbstractHighlightingARGBStream.java:202-209 | As SetAlpha, for the active-segment alpha. |
| Stream.HighlightingArgbStream.SetInvalidSegmentAlpha | src/main/java/org/janelia/saalfeldlab/paintera/stream/AbstractHighlightingARGBStream.java:211-218 | As SetAlpha, for the invalid-segment alpha. |
| Stream.HighlightingArgbStream.SetActiveFragmentAlpha | src/main/java/org/janelia/saalfeldlab/paintera/stream/AbstractHighlightingARGBStream.java:220-227 | As SetAlpha, for the active-fragment alpha. |
| Stream.HighlightingArgbStream.ClearCache | src/main/java/org/janelia/saalfeldlab/paintera/stream/AbstractHighlightingARGBStream.java:249-255 | The colour cache is empty and listeners are notified once. |
| Stream.HighlightingArgbStream.SetColorFromSegmentId | src/main/java/org/janelia/saalfeldlab/paintera/stream/AbstractHighlightingARGBStream.java:257-260 | The colouring mode becomes the argument. The property's listener notifies once if and only if the value changed. |
| Stream.HighlightingArgbStream.SetHighlights | src/main/java/org/janelia/saalfeldlab/paintera/stream/AbstractHighlightingARGBStream.java:272-276 | The active ids are replaced, the cache is emptied and listeners are notified once. |
| Stream.HighlightingArgbStream.SetAssignment | src/main/java/org/janelia/saalfeldlab/paintera/stream/AbstractHighlightingARGBStream.java:278-282 | The assignment is replaced, the cache is emptied and listeners are notified once. |
| Stream.HighlightingArgbStream.SetHighlightsAndAssignment | src/main/java/org/janelia/saalfeldlab/paintera/stream/AbstractHighlightingARGBStream.java:284-291 | Both are replaced, the cache is emptied and listeners are notified exactly once. |
| IntersectingSourceStateDeserializer.Deserialize | src/main/java/org/janelia/saalfeldlab/paintera/serialization/sourcestate/IntersectingSourceStateDeserializer.java:112-179 | An absent dependsOn key fails as a missing key. A dependsOn array whose length is not 2 is a parse error that carries its length. The result is null exactly when the array is well formed and a dependency has not been restored. A first dependency that is not a thresholding state, or a second that is not a label state, is a parse error naming its kind. Once those checks pass, in order: an absent compositeType fails as a missing key, an unknown class is a class-not-found parse error naming it, an absent name fails as a missing key, and a refused cache access is an access parse error. The result is a state exactly when every check passes, built from the two dependencies, the composite and the name. A failure is a parse error exactly when it is not the dereference of an absent key. |
| IntersectingSourceStateDeserializer.DependencyChecksFirst | src/main/java/org/janelia/saalfeldlab/paintera/serialization/sourcestate/IntersectingSourceStateDeserializer.java:117-141 | When the dependency checks fail, the outcome is never a state. It also does not depend on the composite type, the composite, the name or the cache. |

## Left out

- Reading from the N5 store is not modelled: `listAndSortScaleDatasets`, `getDatasetAttributes` and `getAttribute` are I/O. Their results (the sorted scale names, each level's attributes and optional factors) are inputs of `LoadMultiscaleMultisets`.
- The caches are not modelled: the loader cache, the soft and weak reference caches, `SharedQueue` and the invalidation callbacks. A level image records its dataset path, grid and access flags, and a volatile view records its backing image, grids and hints. Loading cells and concurrency are out of scope.
- IEEE `double` arithmetic is modelled as exact `real` arithmetic. Rounding and NaN are not captured.
- `ZeroFactor` is an error of the model only. A zero downsampling factor gives an infinite shift in Java, and an infinite value has no counterpart among the reals. The model reports it as an error.
- On an error the three arrays are returned but their contents are unspecified. In Java an exception is thrown and nothing is returned.
- The transform uses only the first three axes of factors and shifts, as the Java does (`Translation3D` reads three entries). Extra axes are computed and ignored.
- VolatileHelpers.CreateInvalid: requires a valid grid and a key below the number of cells. The cache only asks for keys of cells of the grid, and the Java does not check the key. The `(int)` cast of the voxel count is not modelled, so the data length is the exact product.
- The byte-level layout of `LabelMultisetEntryList` in `LongMappedAccessData` is abstracted to a map from list offsets to entry lists.
- `createVolatileCachedCellImg` (VolatileHelpers.java:52-64) is not modelled beyond what `WrapCachedCellImg` returns. `VolatileCachedCellImg` and `WeakRefVolatileCache` are not part of this model.
- VolatileHelpers.LevelCentresAlign: stated only for level-0 factors of {1, 1, 1}. With other level-0 factors the shift still aligns each level with level 0, but the "mean of covered voxels" reading depends on how level 0 was itself downsampled.
- The general composition law of `AffineTransform3D.concatenate` (apply the concatenation = apply one after the other) is not proved. It is proved when the right operand is a translation (`ConcatenateTranslation`), which is the only use the loader makes of it. The model proves the closed form of the loader's particular concatenation (`ScaleAfterShift`) and the map that results (`LevelTransformMaps`).
- `argbImpl` and `getDoubleImpl` are abstract in the source. The generator is a function-valued constructor parameter that receives the id, the colouring mode and the stream's state (seed, the four alpha words, the active ids, the assignment), so a change of any of these may change a colour. `getDoubleImpl` is not modelled. The lookup tables `rs`, `gs` and `bs` belong to the subclasses.
- Stream.HighlightingArgbStream.Argb: the generator does not see the colour cache. The subclasses memoise colours in `argbCache` from inside `argbImpl`, and that memoisation is not modelled; the cache is only ever emptied here.
- Listener notification is counted in `stateChanges`. The listeners themselves and the observable list are not modelled.
- `SelectedIds` and `FragmentSegmentAssignment` are mutable shared objects in Java. The model keeps a snapshot of the active ids (a sequence) and the assignment as a function. Later changes made through another reference to those objects are not captured.
- Stream.HighlightingArgbStream.GetSeed, `getColorFromSegmentId` and `colorFromSegmentIdProperty` are plain field reads and carry no contract.
- Stream.HighlightingArgbStream.SetSeed: listeners are notified synchronously in Java. Here only the number of notifications is recorded, not which listener ran when.
- The deserializer does not decode JSON and does not look up `Class.forName`. The saved object is given as its fields, with absent keys as None. The composite arrives already decoded, and whether the class name resolves is the parameter `classExists`. A failure while decoding the composite, and `getAsJsonObject` or `getAsString` on a value of the wrong JSON type, are not modelled.
- The deserializer's exception messages are not modelled. The length check's message says "three" and the kind checks' messages say "second" and "third", although the code checks for two dependencies, the first and the second. The model follows the code.
- Building the state itself (meshes, workers, the view frustum) is not modelled. Only the cache-access failure (`InvalidAccessException`) is kept, as the parameter `cacheAccessValid`.
