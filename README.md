# scherzo — a verified model of its core routines

Scherzo turns label images (one label per voxel, possibly one volume per time point)
into surface models and shows them in the browser, one coloured actor per label, with
controls that step and replay through the time points. This project models the routines
of the repository that hold logic of their own, and proves properties of them:

- **Label-set extraction** (`LabelModelGenerator`, `label_model_generator.dfy`). The
  distinct voxel values are sorted numerically in place, and the background 0 is removed.
  Then one `{label, model: null}` record is built per label.
- **Typed-array marshalling** (`WasmHelpers`, `wasm_helpers.dfy`). `allocateMemoryForArray`
  requests `length * BYTES_PER_ELEMENT` bytes from `_malloc`. It then copies the array
  into the WebAssembly linear memory through the heap view of its element type, or throws
  for any other type. The linear memory is one byte array. `HEAP8` … `HEAPF64` are
  little-endian decodings of that one array, so the views alias each other as they do in
  the browser.
- **The native `ModelGenerator`** (`GenerateMesh`, `generate_mesh.dfy`). This is a class
  with an optional image, an optional model and seven settings fields. It covers
  `setImage`'s validation and copying, `generateModel`'s guard and direction reset,
  `getNumberOfPoints`, `getPoints`, the setters, the defaults and the `extern "C"` entry
  points.
- **File-name sanitisation** and the one-file guard of `readImageFromFile` (`ImageReader`,
  `image_reader.dfy`).
- **Time-point navigation** of the main control panel (`ControlPanel`,
  `main_control_panel.dfy`). Step forward and step back wrap around in `1..N`, the replay
  tick advances a counter of its own, and play toggles replay.
- **The viewer page** (`Viewer`, `viewer_page.dfy`). It covers the ITK-SNAP colour table
  and its grey fallback, the one-actor-per-label setup, and the positional rebinding of
  actors on a change of time point. VTK actors and render windows are records.

`wrappers.dfy` holds the shared `Option`, `Result` and `Outcome` types.

Foreign steps are parameters of the model:
- `_malloc`'s answer is the parameter `pBuffer`. Its own writes to linear memory are not modelled (see "## Left out").
- The VTK filter chain and the NIfTI transform are the function parameters `extract` and
  `toNifti`. `extract` receives the image and the five settings the chain reads (sigma,
  iterations, pass band, feature angle, target reduction).
- itk-wasm's `readImage` is the function parameter `readImage`.

Doubles are modelled as exact `real`s. The native settings are only stored and passed on,
so this changes nothing there. The one place where the model computes with doubles is the
colour of a label (`Viewer.LabelColor`): a channel divided by 255 is exact in the model
and rounded to the nearest double in JavaScript. The float elements of typed arrays are
carried as their IEEE 754 bit patterns, because `set` between arrays of one element type
copies bytes.

## Model

| member | source | states |
|---|---|---|
| LabelModelGenerator.Distinct | src/generator/label_model_generator/index.js:16-17 | the unique values hold each value of the data exactly once: no duplicates, and the same elements as the data |
| LabelModelGenerator.SortNumeric | src/generator/label_model_generator/index.js:19 | the array is sorted ascending in place, and is a permutation of what it held |
| LabelModelGenerator.IndexOf | src/generator/label_model_generator/index.js:20 | -1 exactly when the value is absent; otherwise the first index holding it |
| LabelModelGenerator.RemoveAt | src/generator/label_model_generator/index.js:22 | `splice(i, 1)`: one element shorter; the elements before `i` keep their place and those after move down by one |
| LabelModelGenerator.RemoveAtElements | src/generator/label_model_generator/index.js:22 | removing element `i` keeps every other value, drops `s[i]` from a duplicate-free list, and keeps strict order |
| LabelModelGenerator.RemoveBackground | src/generator/label_model_generator/index.js:20-23 | unchanged when 0 is absent; on a duplicate-free list, 0 is gone and every other value is kept; strict order is kept |
| LabelModelGenerator.StrictlyAscendingUnique | src/generator/label_model_generator/index.js:16-23 | two strictly ascending lists with the same elements are equal, so the label list is fixed by the set of values |
| LabelModelGenerator.GenerateLabelModel | src/generator/label_model_generator/index.js:11-50 | the labels are strictly ascending and are exactly the non-zero values of the data; there is one `{label, model: null}` record per label, in order; the result is `undefined` |
| LabelModelGenerator.ExampleLabels | src/generator/label_model_generator/index.js:16-23 | the data `[0, 0, 3, 3, 5]` gives the labels `[3, 5]` |
| LabelModelGenerator.GenerateModelForOneLabel | src/generator/label_model_generator/index.js:3-8 | returns no value |
| WasmHelpers.EncodeDecode | src/generator/wasm_helpers/index.js:6-21 | a view of an element's type reads back any in-range element written as its bytes, two's complement for negative values |
| WasmHelpers.Serialize | src/generator/wasm_helpers/index.js:6-21 | the bytes of `n` elements of size `B` are `n * B` bytes (as `Times(n, B)`) |
| WasmHelpers.SerializeAt | src/generator/wasm_helpers/index.js:6-21 | element `j` occupies bytes `[jB, jB + B)` of the serialised array |
| WasmHelpers.OverwriteFrame | src/generator/wasm_helpers/index.js:6-21 | a write of bytes at an address changes exactly that range of memory, which then holds the bytes; every other cell is unchanged |
| WasmHelpers.WrittenViewReadsInput | src/generator/wasm_helpers/index.js:6-21 | after the elements are written from the byte address of view element `t` (byte `t * B`), view element `t + j` equals input element `j` for every `j < length`; with `B = 1` this is `HEAP8`/`HEAPU8` at `[t, t + length)` |
| WasmHelpers.AlignedStart | src/generator/wasm_helpers/index.js:11-21 | for an address `pBuffer` that is a multiple of `B`, element `pBuffer / B` starts exactly at byte `pBuffer`, so the copy lands at the address `_malloc` returned |
| WasmHelpers.WasmModule.SetView | src/generator/wasm_helpers/index.js:7-21 | `set(input, offset)` succeeds exactly when the view holds `offset + length` elements, and then writes the input's bytes at `offset * B` with the rest of memory unchanged, so that, for an input whose values fit its type, view elements `offset + j` read back input element `j`; otherwise it is a `RangeError` and memory is unchanged |
| WasmHelpers.WasmModule.AllocateMemoryForArray | src/generator/wasm_helpers/index.js:2-27 | `_malloc` is asked for `length * BYTES_PER_ELEMENT` bytes on every path; an unsupported type is an "Unsupported array type" error; the block is not freed, and memory is as `_malloc` left it; for the eight supported types the copy goes to element offset `pBuffer / B`; on success `pBuffer` is returned and, for an input whose values fit its type, `HEAPxx[pBuffer / B + j]` reads back input element `j` for every `j < length` |
| GenerateMesh.NumPixel | src/wasm/generate_mesh.cxx:135 | the voxel count from the dimensions is below 2^32, and is the exact product whenever that product is below 2^32 |
| GenerateMesh.Identity | src/wasm/generate_mesh.cxx:146-147 | a 3 x 3 matrix with ones on the diagonal and zeros elsewhere |
| GenerateMesh.Flatten | src/wasm/generate_mesh.cxx:300-307 | three coordinates per point |
| GenerateMesh.FlattenAt | src/wasm/generate_mesh.cxx:300-307 | entry `3i + k` of the flattened points is coordinate `k` of point `i` |
| GenerateMesh.DirectionMatrix | src/wasm/generate_mesh.cxx:146-151 | a 3 x 3 matrix whose element `(i, j)` is `direction9[3i + j]` |
| GenerateMesh.FloatScalars | src/wasm/generate_mesh.cxx:157-162 | as many voxels as `bufferSize`, voxel `i` being `buffer[i]` converted to floating point |
| GenerateMesh.ModelGenerator.constructor | src/wasm/generate_mesh.cxx:321-331 | no image and no model; the settings are sigma 0.5, 15 iterations, passband 0.01, feature angle 120, reduction 0.9, and both flags false |
| GenerateMesh.ModelGenerator.SetImage | src/wasm/generate_mesh.cxx:125-170 | returns 0 exactly when all five pointers are non-null and `bufferSize` equals the dimensions' voxel count, and 1 otherwise with the stored image unchanged; on 0 the new image has the given dimensions, spacing and origin, direction `(i, j) = direction9[3i + j]`, and voxel `i = buffer[i]`; the model and the settings are unchanged |
| GenerateMesh.ModelGenerator.GenerateModel | src/wasm/generate_mesh.cxx:172-275 | returns 1 with nothing changed when no image is stored; otherwise returns 0; the filter output is taken on the stored image and the current sigma, iteration count, pass band, feature angle and target reduction; with the NIfTI flag on, the stored direction becomes the identity first and the model is that output mapped by the transform taken from the image before the reset; with the flag off, the image is unchanged and the model is the filter output; the settings are unchanged |
| GenerateMesh.ModelGenerator.GetNumberOfPoints | src/wasm/generate_mesh.cxx:278-287 | 0 without a model, otherwise the model's point count |
| GenerateMesh.ModelGenerator.GetPoints | src/wasm/generate_mesh.cxx:288-310 | corrected: the points are written to the caller's array, `points[3i + k]` = coordinate `k` of point `i`; the rest of the array is untouched; the point count is returned |
| GenerateMesh.ModelGenerator.GetPointsAsWritten | src/wasm/generate_mesh.cxx:288-310 | as written: the point count is returned, but the coordinates go to a fresh local array, and the caller's array is not in the frame |
| GenerateMesh.ModelGenerator.SetImageSmoothingSigmaInVox | src/wasm/generate_mesh.cxx:312 | changes only the sigma |
| GenerateMesh.ModelGenerator.SetTaubinSmoothingIterations | src/wasm/generate_mesh.cxx:313 | changes only the iteration count |
| GenerateMesh.ModelGenerator.SetTaubinSmoothingPassband | src/wasm/generate_mesh.cxx:314 | changes only the pass band |
| GenerateMesh.ModelGenerator.SetTaubinSmoothingFeatureAngle | src/wasm/generate_mesh.cxx:315 | changes only the feature angle |
| GenerateMesh.ModelGenerator.SetDecimationTargetReduction | src/wasm/generate_mesh.cxx:316 | changes only the target reduction |
| GenerateMesh.ModelGenerator.SetPrintDebugInfo | src/wasm/generate_mesh.cxx:317 | changes only the debug flag |
| GenerateMesh.ModelGenerator.SetApplyTransformForNifti | src/wasm/generate_mesh.cxx:318 | changes only the NIfTI flag |
| GenerateMesh.CreateModelGenerator | src/wasm/generate_mesh.cxx:338-341 | a fresh generator in its default state |
| GenerateMesh.SetGaussianSigma | src/wasm/generate_mesh.cxx:343-347 | forwards to the sigma setter and returns 0 |
| GenerateMesh.SetMeshSmoothingIterations | src/wasm/generate_mesh.cxx:349-353 | forwards to the iteration setter and returns 0 |
| GenerateMesh.SetMeshSmoothingPassband | src/wasm/generate_mesh.cxx:355-359 | forwards to the pass-band setter and returns 0 |
| GenerateMesh.SetMeshDecimationTargetReduction | src/wasm/generate_mesh.cxx:361-365 | forwards to the reduction setter and returns 0 |
| GenerateMesh.SetApplyTransformForNifti | src/wasm/generate_mesh.cxx:367-371 | forwards to the NIfTI-flag setter and returns 0 |
| GenerateMesh.SetPrintDebugInfo | src/wasm/generate_mesh.cxx:373-377 | forwards to the debug-flag setter and returns 0 |
| GenerateMesh.SetImage | src/wasm/generate_mesh.cxx:385-389 | forwards to `setImage` and returns its status: 0 exactly when all pointers are non-null and the size matches, and then the stored image has the given dimensions, spacing, origin, direction `(i, j) = direction9[3i + j]` and voxels; 1 with the image unchanged otherwise; model and settings unchanged |
| GenerateMesh.GenerateModel | src/wasm/generate_mesh.cxx:391-394 | forwards to `generateModel`: 1 with nothing changed exactly when no image was stored; otherwise 0, with the NIfTI direction reset when the flag is on (the image unchanged when it is off) and the model the filter output on the image and the filter settings, NIfTI-transformed when the flag is on |
| GenerateMesh.GetPointsExample | src/wasm/generate_mesh.cxx:288-310 | for a one-point model, the native `getPoints` returns 1 and leaves the caller's zeroed array at 0, where the corrected one writes 1 |
| ImageReader.SanitizeFileName | src/io/image_io/image_reader.js:22-24 | the output has the input's length |
| ImageReader.SanitizeFileNameAt | src/io/image_io/image_reader.js:23 | at every position, a `'/'` becomes `'_'` and any other character is kept |
| ImageReader.SanitizedHasNoSlash | src/io/image_io/image_reader.js:23 | no `'/'` is left |
| ImageReader.SanitizeFileNameIdempotent | src/io/image_io/image_reader.js:23 | sanitising twice is sanitising once |
| ImageReader.SanitizeFileNameKeepsClean | src/io/image_io/image_reader.js:23 | a name without `'/'` is unchanged |
| ImageReader.SanitizeFile | src/io/image_io/image_reader.js:26-28 | the same bytes under the sanitised name, which has the old name's length and holds no `'/'` |
| ImageReader.SanitizeFiles | src/io/image_io/image_reader.js:31 | the same number of files, each sanitised in its place |
| ImageReader.ReadImageFromFile | src/io/image_io/image_reader.js:30-48 | a result exactly when there is one file; it is `readImage` of that file, sanitised |
| ControlPanel.StepForward | src/viewer_page/main_control_panel/index.jsx:68-74 | the result is `t + 1` or 1, and it stays in `[1, N]` for `t` in `[1, N]` |
| ControlPanel.StepBack | src/viewer_page/main_control_panel/index.jsx:56-62 | the result is `t - 1` or `N`, and it stays in `[1, N]` for `t` in `[1, N]` |
| ControlPanel.BackAfterForward | src/viewer_page/main_control_panel/index.jsx:56-74 | step back after step forward returns to `t` |
| ControlPanel.ForwardAfterBack | src/viewer_page/main_control_panel/index.jsx:56-74 | step forward after step back returns to `t` |
| ControlPanel.ForwardCycle | src/viewer_page/main_control_panel/index.jsx:68-74 | `N` forward steps return to `t` |
| ControlPanel.ForwardInRange | src/viewer_page/main_control_panel/index.jsx:40-50 | any number of forward steps (or replay ticks) from a time point stays in `[1, N]` |
| ControlPanel.MainControlPanel.constructor | src/viewer_page/main_control_panel/index.jsx:27-29 | replay is off, and the tick counter is seeded from `props.activeTP` |
| ControlPanel.MainControlPanel.OnReplayTimerTick | src/viewer_page/main_control_panel/index.jsx:40-50 | the counter's successor, wrapping to 1, is both emitted and stored in the counter |
| ControlPanel.MainControlPanel.OnStepbackClicked | src/viewer_page/main_control_panel/index.jsx:56-62 | emits the step-back time point, and the replay counter is untouched |
| ControlPanel.MainControlPanel.OnPlayClicked | src/viewer_page/main_control_panel/index.jsx:64-66 | toggles replay, and the counter is unchanged |
| ControlPanel.MainControlPanel.OnStepForwardClicked | src/viewer_page/main_control_panel/index.jsx:68-74 | emits the step-forward time point, and the replay counter is untouched |
| ControlPanel.MainControlPanel.HandleSliderTPChange | src/viewer_page/main_control_panel/index.jsx:76-78 | forwards the slider value unchanged |
| Viewer.ColorTableShape | src/viewer_page/index.jsx:17-36 | the keys are exactly 0 to 15; label 0 is `[0, 0, 0, 0]`; labels 1-15 have alpha 1; every channel is in 0..255 |
| Viewer.LabelColor | src/viewer_page/index.jsx:93-98 | channels in [0, 1]; the table's RGB divided by 255 for a label in the table; grey 0.9 exactly for labels outside 0..15 |
| Viewer.BuildActors | src/viewer_page/index.jsx:84-106 | one actor per label model, in order: actor `i` has label `i`'s value, model and colour |
| Viewer.Rebind | src/viewer_page/index.jsx:57-60 | actor `i` takes model `i` for every index both lists have; labels, colours and count are kept, and actors past the models are untouched |
| Viewer.RebindIdempotent | src/viewer_page/index.jsx:52-60 | rebinding to the same time point again changes nothing |
| Viewer.RebindSameLabels | src/viewer_page/index.jsx:52-60 | if two time points list the same labels in the same order, rebinding the actors of one to the other gives the actors set up from the other |
| Viewer.ViewerPage.constructor | src/viewer_page/index.jsx:44-45 | the ref and the state start at time point 1, with no actors and no render window |
| Viewer.ViewerPage.HandleActiveTPChange | src/viewer_page/index.jsx:47-50 | the ref and the state take the same new value, and nothing else changes |
| Viewer.ViewerPage.SetupRenderWindow | src/viewer_page/index.jsx:66-122 | nothing changes when a render window exists; a missing time point is a `TypeError`; otherwise the actor list is `BuildActors` of the active time point's models, a window exists, and one render is made |
| Viewer.ViewerPage.UpdateTPData | src/viewer_page/index.jsx:52-63 | a missing time point is a `TypeError` with nothing changed; otherwise the actors are rebound to that time point's models; it succeeds and renders exactly when that list is no longer than the actor list |
| Viewer.ViewerPage.ActiveTPEffect | src/viewer_page/index.jsx:125-130 | nothing happens without a render window; otherwise `updateTPData` runs: a missing time point is a `TypeError` with nothing changed; else the actors are rebound to that time point's models, and it succeeds with one render exactly when that list is no longer than the actor list, failing with a `TypeError` and no render otherwise; the models and both time-point values are kept |

## Left out

- The VTK filter chain of `generateModel` (src/wasm/generate_mesh.cxx:200-249): the Gaussian smoothing, marching cubes, triangle, normals, clean, windowed-sinc smoothing and quadric decimation filters. These are foreign library calls on floating-point data, so they enter as the function parameter `extract`, applied to the image and the filter settings. The fixed constants of the chain (radius factors 1.5, iso-value 0, the normal and smoothing switches) sit inside `extract`.
- `constructNiftiSform` and `getVTKToNiftiTransform` (src/wasm/generate_mesh.cxx:36-123). These are 4 x 4 floating-point matrix arithmetic and transform application, so they enter as the function parameter `toNifti`.
- The `extern "C" getModel` wrapper (src/wasm/generate_mesh.cxx:397-419). It uses the undeclared `pointsVec` and `getCells`, so it does not compile.
- `getPoints` has `return nullptr` in a `size_t` function (src/wasm/generate_mesh.cxx:293), which does not compile. The model returns 0 there.
- `destroyModelGenerator`. Memory release is not modelled.
- The debug printing of the native code and every `console.log` are left out.
- src/wasm/generator.cxx, src/wasm/generator.h and src/wasm/generate_mesh.hxx are not part of this model.
- `convertItkToVtkImage` and itk-wasm's `readImage` are foreign library calls. `readImage` is a function parameter, and the unused conversion result is dropped.
- `readImageFromFile`, `GenerateLabelModel`, `GenerateModelForOneLabel` and `allocateMemoryForArray` are `async`: each returns a Promise, and a `throw` inside one rejects that Promise. The model returns the settled value directly, and a thrown error is an `Err` or `Fail` result. The unreachable `return outputImage` after the guard of `readImageFromFile` is not modelled.
- LabelModelGenerator.GenerateLabelModel: the voxel values are plain integers (JavaScript numbers). Two kinds of `itkImage.data` are not modelled. A float typed array may hold a NaN; the comparator `a - b` is then not a consistent ordering, so the sorted order (and the sortedness of the labels) is not promised there. A `BigInt64Array` or `BigUint64Array` (64-bit integer images) holds BigInts. With two or more distinct values, `a - b` is a BigInt that `sort` cannot convert to a number, so it throws a `TypeError` and the Promise rejects. With a single distinct value, `indexOf(0)` does not match `0n`, so all-zero data keeps `0n` as a label. The model promises strictly ascending non-zero labels and no error, which holds for neither of these.
- GenerateMesh.ModelGenerator.GetNumberOfPoints: the model assumes the filter output always carries a point array. `getNumberOfPoints` and `getPoints` (src/wasm/generate_mesh.cxx:286, 296-297) dereference `m_Model->GetPoints()` without a null check. A VTK filter output with no points (an image with no crossing at iso-value 0) may carry a null point array, and the source then dereferences null. The model returns 0 points there instead. The same holds for `GetPoints`.
- ImageReader.SanitizeFile: the new `File` keeps the bytes and the name. Its type and `lastModified` are not modelled.
- WasmHelpers.WasmModule.SetView: a typed array carries its elements, with floats as bit patterns. Assigning a plain JavaScript array of a different element type is not modelled.
- WasmHelpers.WasmModule.AllocateMemoryForArray: `_malloc` (src/generator/wasm_helpers/index.js:4) is only the address it returns. Its own writes to linear memory (the chunk header below the block, its free lists) and any growth of the memory are not modelled. So `old(heap)` in its contract stands for the memory as `_malloc` left it. On the error paths memory is unchanged from that memory, not from the memory before the call. On success the same holds for the cells outside the copied range.
- WasmHelpers.WasmModule.AllocateMemoryForArray: `pBuffer / BYTES_PER_ELEMENT` is a floating-point division in JavaScript, and `set` truncates the offset to an integer. The model uses integer division, which gives the same offset for a non-negative address.
- GenerateMesh.NumPixel: `int` overflow is undefined behaviour in C++. The model takes the WebAssembly target's 32-bit wrap-around instead.
- The React machinery: `setInterval`/`clearInterval` timers, effect scheduling, the unmount clean-up, JSX, the render-window and renderer calls other than `render()`, and the camera. A render is counted, and the effects are methods.
- The UI and configuration files: App.jsx, the welcome page, the icon buttons, the slider, the colour preset menu, the app data context and vite.config.js.

## Findings

| source | as written | input that shows it | evidently intended | confidence | as-written member | corrected member |
|---|---|---|---|---|---|---|
| src/wasm/generate_mesh.cxx:298 | `points = new double[numPoints * 3]` rebinds the parameter, so the loop fills a fresh local array that is then lost, and only the count reaches the caller | a model with the single point (1, 2, 3) and a zeroed three-element output array: the count is 1 and `points[0]` stays 0 (GenerateMesh.GetPointsExample) | write the coordinates into the caller's array at `3i + k` | not executed | GenerateMesh.ModelGenerator.GetPointsAsWritten | GenerateMesh.ModelGenerator.GetPoints |
