# PurdueCS530 visualization utilities: a Dafny model

This project models the computational core of the PurdueCS530 course code, a set of VTK
helpers and demos for scientific visualization, and proves properties of the model.

- **Field sampler** (`cs530/utils/vtk_interpolation.py`):
  - The `_Utils` helpers.
  - The choice of point-location strategy by dataset class.
  - `InterpolatorBase.interpolate`, the weighted sum of field rows over the cell that
    holds a point.
  - `TimeInterpolator`: the sort of its time steps, the two deques of its snapshot cache
    and their `load`/`update`, and the linear blend between two time steps.
- **Saddle demos** (`examples/marchingcubes/saddle_2d.py`, `saddle_3d.py`): bilinear and
  trilinear cell arithmetic, the saddle point, and the marker and slider logic.
- **Heightmap example** (`examples/heightmap.py`): the raster layout of `make_sinc` and the
  repacking of `on_sphere`.
- **File-name dispatch**:
  - `cs530/utils/vtk_io.py`: the reader and writer tables and `saveVTK_XML`'s extension.
  - `utils/vtk_helper.py`: `connect`, `replace_extension`, `correct_reader`,
    `correct_writer`.
  - `cs530/utils/vtk_rendering.py`: `take_screenshot`'s format and name, and `make_actor`'s
    mapper set-up.

The code is modelled as written. These places do not do what their comments or names
suggest, and each is stated as a lemma:

- The `backward` hint reaches `stack + 1` steps back.
- The full load uses `np.arange(imin, imax)`, so it leaves out `imax`. It also appends to
  the cache without clearing it.
- The left shift pushes ascending ids one by one on the front, so the new steps end up in
  descending order.
- `imax` is clamped to `len(times)` rather than `len(times) - 1`, so querying the last
  bracket twice asks for a step that does not exist.
- The same query can shift the cache right and then back left.
- `save_vtk_file` cannot save images.
- `read_vtk_file` cannot read `.vts`.
- `utils/vtk_helper.py`'s `replace_extension` builds a path, not a dotted name.

Modules, one file each:

- `Wrappers`: Option, Result, Outcome.
- `PyStr`: the parts of Python `str` and POSIX `os.path` used.
- `VtkKinds`: VTK classes as closed datatypes.
- `FieldSampler`, `TimeWindow`, `TimeInterpolation`.
- `Saddle2D`, `Saddle3D`, `Heightmap`.
- `VtkIo`, `VtkHelper`, `VtkRendering`.

External collaborators are parameters of the model:

- VTK's point location (`FindCell`) is a function from point to cell location.
- The dataset reader is a function from file name to point data.
- `sqrt` and `sin` are uninterpreted functions.

Where the source raises, the model returns a `Failure`/`Fail` value naming the exception.

`TimeInterpolator` is a class:

- Its deques are `seq` fields.
- Its invariant `Valid()` says the two deques have the same length and pair each snapshot
  with the time step it was read from.
- `LoadStep`, `Load` and `Update` are proved equal to the pure functions `StepLoad`,
  `LoadAll` and `UpdateSpec`. The lemmas are proved about those functions.

`make_sinc` and `on_sphere` fill arrays in loops and are methods over `array<real>`.

## Model

| member | source | states |
|---|---|---|
| FieldSampler.SingletonAsScalar | cs530/utils/vtk_interpolation.py:27-35 | a one-element list is unwrapped and any other list kept; wrapping the result with `_singleton_as_array` gives the list back |
| FieldSampler.WrapThenUnwrap | cs530/utils/vtk_interpolation.py:27-35 | unwrapping after wrapping is the identity on single values, and on a list exactly when its length is not one |
| FieldSampler.AttributeFor | cs530/utils/vtk_interpolation.py:75-83 | the reserved attribute is chosen exactly when the lower-cased name is `scalar(s)`/`vector(s)`/`tensor(s)`; any other name is an array lookup under the name as given |
| FieldSampler.AttributeIgnoresCase | cs530/utils/vtk_interpolation.py:75-83 | two reserved names equal up to case select the same attribute on every point data |
| FieldSampler.LocatorFor | cs530/utils/vtk_interpolation.py:114-123 | point sets get a cell-tree locator; image data and rectilinear grids locate themselves; anything else raises `ValueError` |
| FieldSampler.CellSumStep | cs530/utils/vtk_interpolation.py:136-139 | one more cell point adds `weights[i] * f[id]` to every component of the running sum |
| FieldSampler.ConstantFieldScaled | cs530/utils/vtk_interpolation.py:135-139 | a field constant `v` over the cell interpolates to the weight total times `v` |
| FieldSampler.ConstantFieldReproduced | cs530/utils/vtk_interpolation.py:135-139 | with weights summing to one, a field constant over the cell is reproduced exactly |
| FieldSampler.VertexReproduced | cs530/utils/vtk_interpolation.py:135-139 | weights that are one at cell point `k` and zero elsewhere give exactly the row at that point |
| FieldSampler.AddPoint | cs530/utils/vtk_interpolation.py:137-139 | the inner loop adds point `i` to every field's sum, and fails exactly when its weight or some field's row is missing |
| FieldSampler.InterpolatorBase.constructor | cs530/utils/vtk_interpolation.py:111-123 | stores the dataset, the raise flag and the locator chosen by its class |
| FieldSampler.InterpolatorBase.Create | cs530/utils/vtk_interpolation.py:111-123 | fails with `UnrecognizedDataset` exactly for a non-dataset; otherwise a new interpolator with the class's locator |
| FieldSampler.InterpolatorBase.Interpolate | cs530/utils/vtk_interpolation.py:125-140 | equals `Interpolated`: `None`, or `OutOfDomain` when strict, outside the domain; otherwise per field the weighted sum from zero over the cell's points, unwrapped as `_singleton_as_scalar` does |
| TimeInterpolation.ArgSortPrefix | cs530/utils/vtk_interpolation.py:158 | the argsort is a permutation of the indices `0..n-1` |
| TimeInterpolation.ArgSortPrefixSorted | cs530/utils/vtk_interpolation.py:158 | the argsort lists indices in non-decreasing time |
| TimeInterpolation.SortByTime | cs530/utils/vtk_interpolation.py:158-160 | times come out ascending, both lists are permuted by the same permutation, and each file name stays with its time |
| TimeInterpolation.LoadAll | cs530/utils/vtk_interpolation.py:167-189 | an unknown case leaves the cache as it was and succeeds |
| TimeInterpolation.StepLoadPaired | cs530/utils/vtk_interpolation.py:169-189 | one loop iteration keeps the deques paired, snapshot with time step |
| TimeInterpolation.LoadAllPaired | cs530/utils/vtk_interpolation.py:167-189 | every load, finished or stopped by an exception, keeps the deques in lockstep with each snapshot beside its own step |
| TimeInterpolation.StepLoadOutcome | cs530/utils/vtk_interpolation.py:169-189 | one iteration succeeds exactly when the file reads and, for a shift, the deque was not empty; "full" grows the cache by one and a shift keeps its length |
| TimeInterpolation.LoadAllSucceeds | cs530/utils/vtk_interpolation.py:167-189 | a load succeeds exactly when its case is unknown, or every file reads and a shift with something to load finds a non-empty cache |
| TimeInterpolation.LoadFullSteps | cs530/utils/vtk_interpolation.py:168-173 | a successful full load appends the ids in order after the old steps, without clearing, and grows the cache by `len(ids)` |
| TimeInterpolation.StepLoadRight | cs530/utils/vtk_interpolation.py:183-189 | a successful right step drops the first entry and appends the id |
| TimeInterpolation.LoadRightSteps | cs530/utils/vtk_interpolation.py:182-189 | a successful right shift gives `(steps + ids)[len(ids):]` and keeps the length |
| TimeInterpolation.StepLoadLeft | cs530/utils/vtk_interpolation.py:175-181 | a successful left step drops the last entry and pushes the id on the front |
| TimeInterpolation.LoadLeftSteps | cs530/utils/vtk_interpolation.py:174-181 | a successful left shift gives the ids reversed, followed by the old steps, cut to the old length |
| TimeInterpolation.LeftShiftReverses | cs530/utils/vtk_interpolation.py:174-181 | loading 1, 2 to the left of steps 3, 4, 5 leaves 2, 1, 3, which is not ascending |
| TimeInterpolation.UpdateSpec | cs530/utils/vtk_interpolation.py:191-225 | brackets 0 and `len(times)` raise and change nothing; a window inside the cached span changes nothing |
| TimeInterpolation.UpdatePaired | cs530/utils/vtk_interpolation.py:191-225 | an update never breaks the pairing of snapshots with time steps |
| TimeInterpolation.FullLoadKeepsOldSteps | cs530/utils/vtk_interpolation.py:216-218 | a disjoint window is appended after the old steps: 0, 1 then bracket 5 of ten gives 0, 1, 4, 5, 6 |
| TimeInterpolation.LastBracketTwiceFails | cs530/utils/vtk_interpolation.py:212-224 | with six steps and a stack of three, the first `update(5)` loads 4, 5; the second asks for step 6 and raises `IndexError` after dropping step 4 |
| TimeInterpolation.CheckTime | cs530/utils/vtk_interpolation.py:240-241 | passes exactly for `times[0] <= t <= times[-1]`; raises `ValueError` otherwise, or `IndexError` for no times |
| TimeInterpolation.Blend | cs530/utils/vtk_interpolation.py:248-249 | `(1-u)*v0 + u*v1` gives `v0` at `u = 0` and `v1` at `u = 1`, keeps equal values, and for `u` in [0, 1] stays between the two |
| TimeInterpolation.BlendEach | cs530/utils/vtk_interpolation.py:249 | field `i` blends value `i` with value `i + nfields` |
| TimeInterpolation.BlendValues | cs530/utils/vtk_interpolation.py:247-249 | succeeds exactly with at least `2*nfields` values; a single value for one field, else a list of `nfields` per-field blends |
| TimeInterpolation.BlendValuesEndpoints | cs530/utils/vtk_interpolation.py:248-249 | `u = 0` gives the earlier step's values, `u = 1` the later step's |
| TimeInterpolation.TimeInterpolator.constructor | cs530/utils/vtk_interpolation.py:158-165 | sorted times and file names, the given attributes and stack, and an empty, valid cache |
| TimeInterpolation.TimeInterpolator.Create | cs530/utils/vtk_interpolation.py:156-165 | fails exactly for no files, an unsupported dataset or more times than files; otherwise a fresh valid interpolator with the sorted steps and an empty cache |
| TimeInterpolation.TimeInterpolator.LoadStep | cs530/utils/vtk_interpolation.py:169-189 | keeps `Valid()`; the new deques and the outcome are `StepLoad` of the old ones |
| TimeInterpolation.TimeInterpolator.Load | cs530/utils/vtk_interpolation.py:167-189 | keeps `Valid()`; the new deques and the outcome are `LoadAll` of the old ones |
| TimeInterpolation.TimeInterpolator.Update | cs530/utils/vtk_interpolation.py:191-225 | keeps `Valid()`; the new deques and the outcome are `UpdateSpec` of the old ones |
| TimeWindow.Split | cs530/utils/vtk_interpolation.py:203-211 | forward `(1, stack-1)`, backward `(stack+1, 0)`; otherwise `n0 = stack//2` and `n0 + n1 = stack` |
| TimeWindow.Bounds | cs530/utils/vtk_interpolation.py:212-215 | `0 <= imin` and `imax <= len(times)`; `imin == 0` forces `imax = min(stack-1, N-1)`; `imax == N-1` forces `imin = max(N-stack, 0)` |
| TimeWindow.Range | cs530/utils/vtk_interpolation.py:218 | `np.arange(a, b)`: `max(b-a, 0)` integers counting up from `a` |
| TimeWindow.CachedSpan | cs530/utils/vtk_interpolation.py:196-201 | the first and last cached steps, or `(0, 0)` for an empty cache |
| TimeWindow.ChooseLoad | cs530/utils/vtk_interpolation.py:216-225 | full load of `imin..imax-1` exactly when `jmax <= jmin` or the windows are disjoint; then left `imin..jmin-1`; then right `jmax+1..imax`; nothing exactly when the window lies inside the cached span |
| TimeWindow.LastBracketReachesPastEnd | cs530/utils/vtk_interpolation.py:213 | bracket 5 of six steps with a stack of three asks for steps up to 6 |
| TimeWindow.FirstLoadIsShort | cs530/utils/vtk_interpolation.py:214-218 | the first query loads `stack - 1` steps, since the full load excludes `imax` |
| TimeWindow.SameBracketOscillates | cs530/utils/vtk_interpolation.py:216-224 | the same bracket shifts the cache right, then back left |
| Saddle2D.Bilinear | examples/marchingcubes/saddle_2d.py:24-30 | interpolates the four corner values and reproduces a constant |
| Saddle2D.BilinearSlopes | examples/marchingcubes/saddle_2d.py:37-38 | the interpolant is linear along each axis, with the slopes written in the comments |
| Saddle2D.Saddle | examples/marchingcubes/saddle_2d.py:32-41 | the sentinel `[-1, -1, 0]` exactly when the denominator is zero; otherwise a point where both partial derivatives vanish |
| Saddle2D.SaddleIsHyperbolic | examples/marchingcubes/saddle_2d.py:37-41 | around the saddle the interpolant changes by exactly `denom*h*k` |
| Saddle2D.MarkerFor | examples/marchingcubes/saddle_2d.py:210-224 | shown exactly when the saddle lies in the unit square, so never for the sentinel; at the scaled height there; red above zero, blue below |
| Saddle2D.OnSlider | examples/marchingcubes/saddle_2d.py:190-208 | sets one coefficient to the slider value over 100, in [-1, 1] for the slider range, and keeps the others |
| Saddle3D.Trilinear | examples/marchingcubes/saddle_3d.py:26-30 | the two basis polynomials sum to one, so equal coefficients give that value everywhere |
| Saddle3D.CornerValues | examples/marchingcubes/saddle_3d.py:109-117 | corners 0 and 6 evaluate to `fneg`, the six others to `fpos` |
| Saddle3D.BasisStepX | examples/marchingcubes/saddle_3d.py:29-30 | along `x` the two basis polynomials change by opposite amounts |
| Saddle3D.TrilinearSymmetric | examples/marchingcubes/saddle_3d.py:29-30 | the interpolant is symmetric in its coordinates |
| Saddle3D.TrilinearSlope | examples/marchingcubes/saddle_3d.py:29-30 | along each axis the interpolant is linear, with slope `(fpos-fneg)(1-a-b)` of the other two coordinates |
| Saddle3D.SlopeX | examples/marchingcubes/saddle_3d.py:29-30 | the slope along `x` |
| Saddle3D.SlopeY | examples/marchingcubes/saddle_3d.py:29-30 | the slope along `y` |
| Saddle3D.SlopeZ | examples/marchingcubes/saddle_3d.py:29-30 | the slope along `z` |
| Saddle3D.Saddle | examples/marchingcubes/saddle_3d.py:32-33 | the fixed point `(0.5, 0.5, 0.5)`, where all three partial derivatives vanish |
| Saddle3D.CentreValue | examples/marchingcubes/saddle_3d.py:210 | the centre value is `fneg/4 + 3*fpos/4` |
| Saddle3D.CentreColour | examples/marchingcubes/saddle_3d.py:210-216 | yellow exactly when `3*fpos > -fneg`, blue exactly when `3*fpos < -fneg` |
| Saddle3D.OnPosSlider | examples/marchingcubes/saddle_3d.py:197-200 | `fpos` becomes the slider value over 100, in [0, 1] for the slider range |
| Saddle3D.OnNegSlider | examples/marchingcubes/saddle_3d.py:202-205 | `fneg` becomes the negated slider value over 100, in [-1, 0] for the slider range |
| Saddle3D.SliderColour | examples/marchingcubes/saddle_3d.py:194-216 | with both sliders in range, yellow exactly when `3*pos > neg`, grey exactly when equal |
| Heightmap.IdxBounds | examples/heightmap.py:23-31 | sample `(i, j)` sits at `i + j*n`, in row `j`'s block and inside `[0, n*n)` |
| Heightmap.IdxInjective | examples/heightmap.py:23-31 | distinct samples get distinct positions |
| Heightmap.IdxOnto | examples/heightmap.py:23-31 | every position of `[0, n*n)` is written, by sample `(k % n, k / n)` |
| Heightmap.IdxInRange | examples/heightmap.py:23-31 | every sample's position is inside the array |
| Heightmap.EarlierRowsBefore | examples/heightmap.py:23-31 | the samples of earlier rows sit before row `j`'s block |
| Heightmap.CoordRange | examples/heightmap.py:21-26 | coordinates start at `-width` with `dh = 2*width/n`; `n` steps reach `+width` |
| Heightmap.SincAt | examples/heightmap.py:27-31 | one where the radius is zero; otherwise `v*r == sin(r)` |
| Heightmap.CentreSample | examples/heightmap.py:27-29 | for even `n` the centre sample sits at the origin and is exactly one |
| Heightmap.MakeSinc | examples/heightmap.py:20-37 | `n == 0` divides by zero; otherwise `n*n` entries, sample `(i, j)` at `i + j*n`, zeros for negative `n`, and the image geometry as built |
| Heightmap.FillRow | examples/heightmap.py:25-31 | writes row `j`'s samples at `j*n + i` and changes nothing outside that row |
| Heightmap.OriginDisagreesWithSamples | examples/heightmap.py:21-35 | the image's row `j` is placed at `width + j*dh`, never where it was sampled |
| Heightmap.SpherePacking | examples/heightmap.py:51-54 | defined exactly for `w >= 1`, `h >= 2`; length `2 + w*(h-2)`, `values[0]` and `values[-1]` first, then `values[w + k]` |
| Heightmap.OnSphere | examples/heightmap.py:45-56 | succeeds exactly when `SpherePacking` is defined, and the new array holds exactly those values |
| PyStr.Lower | cs530/utils/vtk_io.py:25 | keeps the length and lower-cases each character on its own |
| PyStr.SplitExt | cs530/utils/vtk_io.py:22 | stem plus extension is the name; the extension is empty or a dot followed by no dot and no separator |
| PyStr.Join | utils/vtk_helper.py:33 | the joined path ends with the second component |
| PyStr.SplitExtAppend | cs530/utils/vtk_io.py:21-22 | appending `.e` to a name whose last component has a non-dot splits back into the name and `.e` |
| PyStr.SplitExtWith | cs530/utils/vtk_io.py:21-22 | the same, with the dotted extension given whole |
| PyStr.SplitExtLower | cs530/utils/vtk_io.py:25 | lower-casing a name lower-cases its stem and extension and moves neither |
| PyStr.LowerIdempotent | cs530/utils/vtk_io.py:25 | lower-casing twice is lower-casing once |
| PyStr.StemOfExtendedName | cs530/utils/vtk_io.py:22 | the stem of a name with an extension has a non-dot in its last component, so a new extension splits back |
| PyStr.JoinHasNoExtension | utils/vtk_helper.py:32-33 | joining a dot-free component gives a name without an extension |
| VtkKinds.InputLink | cs530/utils/vtk_io.py:15-18 | an input is connected by port exactly when it is an algorithm, else handed over as data |
| VtkIo.ReplaceExtension | cs530/utils/vtk_io.py:21-22 | the old stem followed by `newext` |
| VtkIo.ReplaceExtensionSplits | cs530/utils/vtk_io.py:21-22 | for `.e` the result splits into the old stem and `.e` |
| VtkIo.ReaderFor | cs530/utils/vtk_io.py:26-47 | a reader exactly for vtk, vti, vtu, vtp, vtr, jpg/jpeg, png, tif/tiff, nrrd/nhdr, csv; with the classes of the table |
| VtkIo.ReadVtkFile | cs530/utils/vtk_io.py:24-47 | the reader for the lower-cased extension with the name given; `TypeError` naming the extension otherwise |
| VtkIo.ReadIgnoresCase | cs530/utils/vtk_io.py:25 | a name and its lower-cased form get the same reader class |
| VtkIo.StructuredGridUnreadable | cs530/utils/vtk_io.py:24-47 | `.vts` in any case raises |
| VtkIo.Write | cs530/utils/vtk_io.py:13-19 | a writer with the given class and name, fed by port exactly when the input is an algorithm |
| VtkIo.DatasetWriterFor | cs530/utils/vtk_io.py:51-62 | a dataset writer exactly for vtk, vti, vtu, vtp, vts, vtr |
| VtkIo.SaveVtkFile | cs530/utils/vtk_io.py:49-72 | dataset formats write the dataset under the name; image and csv formats raise for the missing argument; others raise `ValueError` with the extension |
| VtkIo.ImagesNeverSave | cs530/utils/vtk_io.py:63-70 | every image or csv name, in lower case or as `.JPG`/`.PNG`, fails |
| VtkIo.XmlExtension | cs530/utils/vtk_io.py:75-86 | the five classes get vti, vtu, vtp, vtr, vts; anything else gets `.vtk` |
| VtkIo.SaveVtkXml | cs530/utils/vtk_io.py:74-90 | the name is the stem with the class's extension; the call then fails on the undefined `saveVTK` |
| VtkIo.XmlExtensionLower | cs530/utils/vtk_io.py:75-86 | the chosen extensions are lower case |
| VtkIo.XmlNameExtension | cs530/utils/vtk_io.py:74-86 | the computed name's lower-cased extension is the chosen one |
| VtkIo.XmlExtensionWriter | cs530/utils/vtk_io.py:51-62 | the extension chosen for a class selects that class's writer |
| VtkIo.XmlNameSaves | cs530/utils/vtk_io.py:49-86 | `save_vtk_file` accepts the computed name and writes the dataset with its class's writer |
| VtkIo.XmlExtensionReader | cs530/utils/vtk_io.py:26-47 | every chosen extension except `.vts` has a reader |
| VtkIo.XmlNameReads | cs530/utils/vtk_io.py:24-86 | reading the computed name back succeeds exactly for classes other than the structured grid |
| VtkHelper.Connect | utils/vtk_helper.py:20-27 | succeeds exactly for an algorithm output fed by an algorithm or a dataset; by port exactly for an algorithm; returns the output; else `TypeError` |
| VtkHelper.ConnectLikeWrite | utils/vtk_helper.py:20-27 | a successful `connect` attaches its input as the writer helper does |
| VtkHelper.StripDot | utils/vtk_helper.py:30-31 | one leading dot is removed, and nothing else changes |
| VtkHelper.ReplaceExtension | utils/vtk_helper.py:29-33 | an empty extension raises `IndexError`; otherwise the path ends with the stripped extension and is the stem, a separator and the extension |
| VtkHelper.ReplacedNameHasNoExtension | utils/vtk_helper.py:29-33 | for an extension with no further dot, the result has no extension |
| VtkHelper.ExactFormat | utils/vtk_helper.py:40-52 | known exactly for the all-lower or all-upper `.vtk`, `.vti`, `.vtu`, `.vtp`, `.vtr` |
| VtkHelper.ExactFormatAgreesWithRead | utils/vtk_helper.py:40-49 | each known spelling maps, lower-cased, to the same reader class in `read_vtk_file` |
| VtkHelper.TargetName | utils/vtk_helper.py:36-37 | the name as given, or rewritten by `replace_extension` when `_ext` is given |
| VtkHelper.CorrectReader | utils/vtk_helper.py:35-54 | raises only for an empty `_ext`; a reader set to the target name exactly for a known spelling; `None` otherwise |
| VtkHelper.CorrectWriter | utils/vtk_helper.py:56-75 | the same with writers |
| VtkHelper.WithExtensionNeverMatches | utils/vtk_helper.py:35-75 | giving `_ext` such as `.vtk` always ends in `None` |
| VtkHelper.MixedCaseRejected | utils/vtk_helper.py:40-52 | `.Vtk` is refused by both functions although `read_vtk_file` reads it |
| VtkHelper.CorrectReaderAgreesWithRead | utils/vtk_helper.py:35-54 | on a known spelling `correct_reader` builds the reader `read_vtk_file` builds, with the same name |
| VtkRendering.ScreenshotTarget | cs530/utils/vtk_rendering.py:165-170 | a given format is kept; else the extension without its dot; else `jpg` with `.jpg` appended |
| VtkRendering.DerivedFormatMatchesName | cs530/utils/vtk_rendering.py:165-170 | without a format, the name's extension is the format used |
| VtkRendering.ScreenshotWriter | cs530/utils/vtk_rendering.py:173-183 | a writer exactly for png, jpg/jpeg, tif/tiff, bmp, with the class of each |
| VtkRendering.TakeScreenshot | cs530/utils/vtk_rendering.py:165-183 | the derived format's writer with the derived name, or `ValueError` naming the format |
| VtkRendering.DefaultIsJpeg | cs530/utils/vtk_rendering.py:168-177 | a name without an extension is written as JPEG under name + `.jpg` |
| VtkRendering.UpperCaseRefused | cs530/utils/vtk_rendering.py:173-183 | `.PNG` raises although `read_vtk_file` reads it |
| VtkRendering.MakeActor | cs530/utils/vtk_rendering.py:50-66 | a given mapper is reused, else a new dataset mapper; lookup table iff `ctf`; scalars visible iff `ctf` or `show_scalars`; by port iff an algorithm |
| VtkRendering.GivenMapperFeedsItself | cs530/utils/vtk_rendering.py:50-62 | a mapper passed in is reused and connected to its own output port |
| VtkRendering.ActorFedLikeConnect | cs530/utils/vtk_rendering.py:50-64 | for a dataset or a non-mapper algorithm the new mapper is fed as `connect` would feed it |

## Left out

- VTK point location (`_locate`, `vtkCellTreeLocator`, `FindCell`, `GetCellPoints`) is a foreign library. It is the function `locate` given to the interpolator, returning a location or none.
- Dataset loading (`_import_dataset`, `nrrd.read`, the VTK readers) is file I/O. The reader is a function from file name to point data, or none where it raises.
- The numpy and VTK conversions (`_as_numpy`, `_nbytes`, `_flatten`, dtype handling) are left out. Fields are rows of reals.
- `Interpolator`, the subclass that stores its fields, is not part of this model. It only forwards to `interpolate`.
- `fetch` and the front half of `__call__` cannot run as written: `cached_times` is never assigned, and the comprehension uses its loop variable before binding it. Only the time check and the final blend are modelled. The bracket search is not modelled.
- `TimeInterpolator.__init__` calls an undefined `import_dataset`. The model takes the first dataset's class as a parameter instead.
- The `ValueError` message of `update` names an undefined `t`. The model raises the intended out-of-bounds error.
- `main()` of `vtk_interpolation.py` uses random sampling, scipy and printing, and is left out.
- Floating point: weights, blends, coordinates and the bilinear and trilinear formulas are over `real`. `sqrt` and `sin` are uninterpreted functions.
- The Qt and actor construction of both saddle demos, and the demos' rendering, are left out.
- The rest of `cs530/utils/vtk_rendering.py` (`make_tubes`, `make_spheres`, `make_ellipsoids`, `make_fiber_actor`, `make_render_kit`, `main`) is rendering-pipeline glue and is left out.
- The actual writing and rendering in `take_screenshot` and `__write` are left out. The model stops at the configured writer.
- `cs530/utils/vtk_camera.py` (JSON file I/O and wall-clock file names) is not part of this model.
- The GUI, timer and colour-map examples are not part of this model. Neither are `utils/vtk_qt.py`, `cs530/utils/vtk_colorbar.py`, `cs530/__init__.py` and `testing/test.py`.
- `utils/vtk_helper.py` cannot be imported, because its `__all__` names functions before they are defined. Its functions are modelled one by one.
- The warnings `correct_reader`, `correct_writer` and `saveVTK_XML` print are left out.
- `saveVTK_XML` calls an undefined `saveVTK`. The model returns the name it computes together with that `NameError`.
- Paths follow POSIX `os.path`, with `/` as the only separator.
- PyStr.Lower: lower-cases ASCII letters only, not the full Unicode mapping of Python's `str.lower`. Every extension the source compares is ASCII.
- TimeInterpolation.SortByTime: uses a stable insertion sort. `np.argsort`'s default sort does not fix the order of equal times. The contract states sortedness and the common permutation, which hold for any tie order.
- TimeInterpolation.Blend: requires the two values of a field to have the same width. numpy would broadcast or raise for mismatched shapes.
- FieldSampler.Interpolate: requires every field to have rows of one width, as a numpy 2-D array does. `FindCell` writes into a buffer of eight weights; the model takes the weights `locate` returns.
- VtkKinds.InputLink: `SetInputData` on an object that is neither an algorithm nor a dataset is modelled as feeding by data. VTK's own type error is left out.
- Heightmap.MakeSinc: the array holds `real` values, not numpy's float64, and `sqrt`/`sin` are uninterpreted, so only the layout and the `r == 0` case are exact.
