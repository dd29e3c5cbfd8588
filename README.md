# YOLO-to-COCO conversion and image-model benchmarking, in Dafny

This project models the two working parts of a small benchmarking repository for
image-classification models.

- **The annotation converter** (`create_coco_annotations` in `gen_annotations.py`)
  lists an image directory and sorts the names. For each `.jpg` file it reads the
  image size and takes the image id from the part of the name before the first `.`.
  It appends an image record, then turns each line of the matching YOLO label file
  (`category x_center y_center w h`, normalised) into a COCO annotation.
  Each annotation has a pixel corner box, `area = w * h`, an empty segmentation,
  `iscrowd = 0` and a running id from 0. The document also carries a fixed info
  block, one license and 80 categories named `"0"` to `"79"`.
- **The benchmark runner** (`run_benchmarks.py`) holds the configuration: batch sizes,
  a table of input sizes per model with a 224 fallback, 11 active models, 10 warm-up
  and 50 timed iterations, and a device chosen as MUSA, else CUDA, else CPU.
  It measures mean, minimum and maximum inference time per batch. It runs every
  active model at every input size and batch size. A model that fails to load is
  skipped, and so is a point that fails. Each row records fps and throughput.
  Saving an empty result list does nothing.

Modules:

- `Wrappers`: `Option` and `Result`.
- `PyText`: the Python string built-ins the converter relies on (`strip`, `split`,
  `endswith`, `replace`, `split('.')[0]`, `int()`, `float()`, `str(n)`), with
  their laws.
- `Sorting`: `sorted` on strings, with the proof that a sorted permutation is unique.
- `Annotations`: the converter, written two ways. `Scan`/`AddImage`/`AddLines`
  define it one entry and one line at a time. The method `CreateCocoAnnotations`
  performs the loops and is proved equal to that definition.
- `AnnotationFacts`: what the converter guarantees about the document.
- `Benchmark`: the configuration, the timing loop, the nested benchmark loops and
  the save guard, each loop a method proved equal to a function.
- `BenchmarkFacts`: what the runner guarantees about its results.

The outside world enters as parameters:

- The image directory's listing is `entries`.
- `sizes` maps each image PIL can open to its size; a missing name is an image on
  which `Image.open` raises.
- `labels` maps each existing label file to its lines.
- For the benchmark, `loads(model)` says whether everything in the model's `try`
  block before the loops succeeds: creating the model, moving it to the device,
  and counting and printing its parameters.
- `probe(point)` gives what one (model, input size, batch size) point yields:
  the parameter and MAC counts, the number of batches the loader delivers and
  the elapsed time of each timed pass. It is `None` when anything in the point's
  `try` block raises: creating the loader, counting the complexity, or a forward
  pass in the warm-up or the timed loop (an out-of-memory error at a large batch
  size, say).

The box of a centred label `0 0.5 0.5 0.2 0.4` on a 400 x 300 image has
x = (0.5 - 0.2/2) * 400 = 160, as `gen_annotations.py:76` computes it
(`AnnotationFacts.CenteredBoxExample`).

## Model

| member | source | states |
|---|---|---|
| Annotations.CategoryList | gen_annotations.py:35-37 | the category list has `n` entries and entry `i` is `{id: i, name: str(i), supercategory: "none"}` |
| AnnotationFacts.CategoriesFixed | gen_annotations.py:35-37 | there are exactly 80 categories; category `k` has id `k`, supercategory `"none"`, and a name that `int()` reads back as `k` |
| Annotations.CocoBox | gen_annotations.py:76-79 | the pixel box has the label's centre scaled to the image as its centre, and the label's sides scaled to the image as its sides |
| AnnotationFacts.CocoBoxRoundTrip | gen_annotations.py:76-79 | on an image with positive sides, converting the pixel box back to normalised YOLO coordinates gives the label line again |
| AnnotationFacts.CenteredBoxExample | gen_annotations.py:76-89 | the centred label `0 0.5 0.5 0.2 0.4` on a 400 x 300 image gives bbox `[160, 90, 80, 120]`, area 9600 and category 0 |
| Annotations.MapAll | gen_annotations.py:73 | `map(f, xs)` consumed to the end yields one value per element, or fails |
| Annotations.MapAllEach | gen_annotations.py:73 | the map succeeds exactly when every call succeeds, and then value `i` is the result of the call on element `i` |
| Annotations.ParseFloats | gen_annotations.py:73 | `map(float, tokens)` yields one value per token when it succeeds |
| AnnotationFacts.LabelLineFields | gen_annotations.py:73 | a label line parses exactly when its stripped, split fields are five valid floats, and then they are the category and the box, in order |
| Annotations.ParseLines | gen_annotations.py:72-73 | a label file's lines give one parse outcome each |
| Annotations.EachOutcomeAt | gen_annotations.py:72-73 | the outcome of line `k` is the parse of line `k` |
| Annotations.ParseLinesAt | gen_annotations.py:72-73 | parse outcome `k` of a label file is `ParseLabelLine` of its line `k` |
| Annotations.ImageId | gen_annotations.py:54 | the image id is `int()` of the name up to its first dot, with `int()`'s failure as `None` |
| Annotations.LabelFileName | gen_annotations.py:67 | the label file name has the image name's length, and the label file of a `.jpg` name ends in `.txt` |
| Annotations.MakeAnnotation | gen_annotations.py:76-89 | an annotation carries its running id, its image's id, the category truncated to an integer, the pixel box `CocoBox`, no segmentation and `iscrowd` 0 |
| Annotations.AnnotationArea | gen_annotations.py:78-86 | the area is the label's normalised `w * h` times the image's pixel count |
| Annotations.ReadLabelLine | gen_annotations.py:73 | parsing line `j` gives the `j`-th parse outcome of the file |
| Annotations.AnnotateLines | gen_annotations.py:70-92 | the inner loop's result is the line-by-line definition `AddLines` of the label file |
| Annotations.AddImageFile | gen_annotations.py:45-92 | one pass of the outer loop is the one-entry definition `AddImage` |
| Annotations.ScanNames | gen_annotations.py:42-92 | the outer loop over the sorted names, with the counter from 0, is the entry-by-entry definition `Scan`, stopping at the first failing entry |
| Annotations.CreateCocoAnnotations | gen_annotations.py:18-94 | the converter's result is the definition `Convert`: the sorted entries scanned one by one, then the fixed info, licenses and categories |
| AnnotationFacts.ImageIdOfDigits | gen_annotations.py:54 | the image id of `digits.rest` is the value of the digits |
| AnnotationFacts.ImageIdOfWord | gen_annotations.py:54 | `img1.jpg` has no image id, because `int('img1')` raises |
| AnnotationFacts.ImageIdIgnoresLeadingZeros | gen_annotations.py:54 | leading zeros in the stem do not change the image id |
| AnnotationFacts.LabelFileNameOfStem | gen_annotations.py:67 | for a name `stem.jpg` with no other dot, the label file is `stem.txt` |
| AnnotationFacts.LabelFileNameReplacesEvery | gen_annotations.py:67 | `replace` rewrites every `.jpg`, so `a.jpg.jpg` pairs with `a.txt.txt` |
| AnnotationFacts.AddLinesSucceeds | gen_annotations.py:72-92 | when a label file converts, it adds one annotation per line, in order, with consecutive ids from the counter, and keeps everything before it |
| AnnotationFacts.AddParsedLines | gen_annotations.py:72-92 | annotating lines that all parsed adds exactly their annotations, line `k` numbered `nextId + k`, and advances the counter by the line count |
| AnnotationFacts.MapAllEachOutcome | gen_annotations.py:72-73 | parsing a file's lines one by one and parsing them all at once agree: all succeed exactly when the whole map does, with the same values |
| AnnotationFacts.AddMappedLinesSucceed | gen_annotations.py:72-92 | for any line parser, a label file converts exactly when the parser accepts every line |
| AnnotationFacts.AddLinesParsesAll | gen_annotations.py:72-92 | a label file converts exactly when every one of its lines parses |
| AnnotationFacts.AddMappedLines | gen_annotations.py:72-92 | for any line parser that accepts every line, the file adds the annotations of the parsed lines, numbered from the counter, and nothing else |
| AnnotationFacts.AddLinesAnnotations | gen_annotations.py:72-92 | a label file whose lines all parse adds the annotations of its parsed lines, numbered from the counter, and nothing else |
| AnnotationFacts.LineAnnotations | gen_annotations.py:72-92 | the annotations of parsed lines from `start`: one per line, line `k` giving `MakeAnnotation(start + k, ...)` |
| AnnotationFacts.ImageAnnotationsLines | gen_annotations.py:67-92 | for an image whose label file parses, annotation `k` of the image is built from line `k` of that file, with the image's id and size and the id `start + k` |
| AnnotationFacts.AddImageAnnotations | gen_annotations.py:45-92 | a converted `.jpg` entry appends its image record, and appends exactly the annotations of its own label file, numbered from the counter, with its own id and size |
| AnnotationFacts.ScanAnnotations | gen_annotations.py:42-92 | after the scan the annotations are those of the recorded images' label files, image after image, numbered from 0 |
| AnnotationFacts.AddLinesFails | gen_annotations.py:73 | a label file fails exactly when one of its lines does not parse, and the error names the first such line |
| AnnotationFacts.AddImageFails | gen_annotations.py:45-73 | an entry fails exactly when it is a `.jpg` that cannot be opened, has a non-integer stem, or has a label file with a malformed line |
| AnnotationFacts.AddImageRecords | gen_annotations.py:45-92 | a non-`.jpg` entry changes nothing; a `.jpg` appends exactly its image record with the size read and date `"2024"`, and grows the annotations and the counter by its label file's line count (what those annotations are is `AddImageAnnotations`) |
| AnnotationFacts.AddLinesPreserves | gen_annotations.py:81-92 | annotating a label file keeps the counter equal to the number of annotations, ids equal to positions, the fixed annotation shape, and every annotation's image already recorded |
| AnnotationFacts.AddImagePreserves | gen_annotations.py:45-92 | one entry preserves the same invariant |
| AnnotationFacts.ScanConsistent | gen_annotations.py:42-92 | the whole scan keeps that invariant from the empty start |
| AnnotationFacts.ScanImages | gen_annotations.py:45-64 | the image records are the `.jpg` entries, in scan order |
| AnnotationFacts.ScanAnnotationCount | gen_annotations.py:70-92 | the number of annotations is the total line count of the existing label files |
| AnnotationFacts.ScanFails | gen_annotations.py:45-73 | the scan fails exactly when some entry is faulty |
| AnnotationFacts.ImageFilesSorted | gen_annotations.py:45-47 | filtering a sorted listing down to `.jpg` names keeps it sorted |
| AnnotationFacts.ImageFilesPermutation | gen_annotations.py:45-47 | listings with the same names have the same `.jpg` names |
| AnnotationFacts.FileNames | gen_annotations.py:59 | the file names of the image records, one per record, in order |
| AnnotationFacts.ConvertImages | gen_annotations.py:45-64 | the document's images are sorted by file name, are exactly the `.jpg` entries, and each holds its file's id, size and date |
| AnnotationFacts.ConvertAnnotations | gen_annotations.py:20-92 | the document has the fixed info, licenses and categories, one annotation per label line, ids 0, 1, 2, ..., the fixed shape, and image ids of recorded images; the annotations are `AnnotationsOf(images)`: image after image, line `k` of an image's label file giving the next annotation, with that image's id and size |
| AnnotationFacts.ConvertFails | gen_annotations.py:45-73 | the conversion raises exactly when some entry of the listing is faulty, whatever the listing's order |
| PyText.Strip | gen_annotations.py:73 | `strip` leaves neither end as whitespace and never lengthens |
| PyText.StripIsSlice | gen_annotations.py:73 | `strip` removes only whitespace runs at the two ends |
| PyText.Split | gen_annotations.py:73 | `split()` yields non-empty words without whitespace |
| PyText.SplitJoin | gen_annotations.py:73 | splitting words joined by spaces, with trailing whitespace, gives the words back |
| PyText.SplitRuns | gen_annotations.py:73 | `split()` of words separated by any non-empty whitespace, with any whitespace before the first and after the last, gives exactly those words |
| PyText.ReplaceAll | gen_annotations.py:67 | `replace` with a same-length replacement keeps the length |
| PyText.ReplaceAllAbsent | gen_annotations.py:67 | `replace` changes nothing where the pattern does not occur |
| PyText.ReplaceAllFirst | gen_annotations.py:67 | `replace` keeps the text before the first occurrence, writes the replacement for that occurrence, and replaces the rest after it in the same way |
| PyText.ReplaceAllSuffix | gen_annotations.py:67 | for a pattern that cannot overlap itself, such as `.jpg`, a text ending in the pattern is replaced into a text ending in the replacement |
| PyText.FirstField | gen_annotations.py:54 | `split('.')[0]` is the longest prefix without a dot, ending at the first dot or at the end |
| PyText.Decimal | gen_annotations.py:36 | `str(n)` is a non-empty run of digits with no leading zero unless `n` is 0 |
| PyText.DecimalValue | gen_annotations.py:36 | the digits of `str(n)` denote `n` |
| PyText.NumberStrip | gen_annotations.py:54 | the literal `int()` and `float()` read has no number whitespace at either end, is never longer, and is the input itself when the input has none at its ends |
| PyText.NumberStripIsSlice | gen_annotations.py:54 | what `int()` and `float()` strip is number whitespace only: the literal they read is a slice of the input with only number whitespace before and after it |
| PyText.NumberStripBounds | gen_annotations.py:54 | the same, giving the slice's two ends |
| PyText.DigitPartChars | gen_annotations.py:54 | a digit part holds only digits and underscores |
| PyText.ParseIntAlphabet | gen_annotations.py:54 | `int()` succeeds only on a literal of digits and underscores with at most a sign in front; any other character raises |
| PyText.ParseIntRejectsWord | gen_annotations.py:54 | `int('img1')` raises |
| PyText.ParseInt | gen_annotations.py:54 | `int()` fails on a literal that is empty after stripping; a negative result has a leading `-`, and a leading `-` never gives a positive result |
| PyText.ParseIntSpaces | gen_annotations.py:54 | `int(' 7\n') == 7`, but `int()` rejects a leading U+001C, which `strip` removes |
| PyText.ParseIntDigits | gen_annotations.py:54 | `int` of a run of digits is its value |
| PyText.ParseIntDecimal | gen_annotations.py:54 | `int(str(n)) == n` |
| PyText.ParseIntNegative | gen_annotations.py:54 | `int('-' + str(n)) == -n` |
| PyText.ParseIntLeadingZeros | gen_annotations.py:54 | `int('00' + str(n)) == n` for any number of zeros |
| PyText.ParseFloatDigits | gen_annotations.py:73 | `float` of a run of digits is its value |
| PyText.ParseFloatDecimal | gen_annotations.py:73 | `float(str(n)) == n` |
| PyText.ParseFloat | gen_annotations.py:73 | `float()` fails on a literal that is empty after stripping; a negative result has a leading `-`, and a leading `-` never gives a positive result |
| PyText.MantissaChars | gen_annotations.py:73 | a mantissa `float()` accepts holds only digits, underscores and its point |
| PyText.ExponentChars | gen_annotations.py:73 | an exponent `float()` accepts holds only digits and underscores, with at most a sign in front |
| PyText.UnsignedFloatChars | gen_annotations.py:73 | an unsigned literal `float()` accepts holds only digits, underscores, points, `e`/`E` and signs |
| PyText.ParseFloatAlphabet | gen_annotations.py:73 | `float()` succeeds only on a literal of digits, underscores, points, `e`/`E` and signs; any other character raises |
| PyText.ParseFloatRejectsWord | gen_annotations.py:73 | `float('abc')` raises |
| PyText.ParseFloatFraction | gen_annotations.py:73 | `float` of digits `w.f` is all the digits read as one integer, divided by ten to the length of `f` |
| PyText.Truncate | gen_annotations.py:84 | `int(x)` truncates toward zero: the result is within 1 of `x` and not beyond it |
| Sorting.Sort | gen_annotations.py:45 | `sorted` returns a sorted permutation of its input |
| Sorting.SortedUnique | gen_annotations.py:45 | two sorted permutations of the same names are equal, so the scan order is fixed |
| Benchmark.SelectDevice | run_benchmarks.py:120 | the device is MUSA iff MUSA is available, CUDA iff only CUDA is, otherwise CPU |
| Benchmark.NewConfig | run_benchmarks.py:26-120 | the configuration has batch sizes `[1, 4, 16, 64, 128]`, 10 warm-up and 50 timed iterations, and the selected device |
| BenchmarkFacts.TableDefaultsListed | run_benchmarks.py:29-99 | every row of the model table lists its default size among its input sizes |
| BenchmarkFacts.ActiveModelsConfigured | run_benchmarks.py:101-116 | there are 11 active models and each has a row in the table |
| Benchmark.InputSizes | run_benchmarks.py:122-125 | a listed model gets its table entry's sizes, any other model `[224]` |
| Benchmark.DefaultSize | run_benchmarks.py:127-130 | a listed model gets its table entry's default, any other model 224 |
| BenchmarkFacts.DefaultSizeListed | run_benchmarks.py:122-130 | for every model name, the default size is one of the sizes tried |
| Benchmark.Samples | run_benchmarks.py:171-191 | the timed passes give one sample per pass, in order |
| Benchmark.Minimum | run_benchmarks.py:196 | the minimum is a sample and below every sample |
| Benchmark.Maximum | run_benchmarks.py:197 | the maximum is a sample and above every sample |
| Benchmark.Mean | run_benchmarks.py:194 | the mean lies between the minimum and the maximum |
| Benchmark.Summarize | run_benchmarks.py:193-199 | no summary exists for no samples; otherwise min and max are samples bounding all samples, and `min <= mean <= max` |
| Benchmark.MeasureInferenceTime | run_benchmarks.py:157-199 | the warm-up and timed loops stop at the iteration count or when the loader runs out; the timing summarises the first `min(batches, iterations)` samples |
| Benchmark.SampleCount | run_benchmarks.py:162-191 | there are at most as many samples as iterations and as batches, and none exactly when the loader is empty or no iteration is asked for |
| Benchmark.Fps | run_benchmarks.py:247 | fps times the mean time is the batch size |
| Benchmark.SumRepeatedIsProduct | run_benchmarks.py:248 | adding the mean `n` times gives `n` times the mean |
| Benchmark.ThroughputIsFps | run_benchmarks.py:247-248 | with at least one iteration the throughput equals the fps; with none it is a division by zero |
| Benchmark.Throughput | run_benchmarks.py:248 | the throughput divides by zero, which is `None`, exactly when no timed iteration is asked for |
| Benchmark.PointResult | run_benchmarks.py:225-254 | a point with a row is one whose `try` block did not raise, and its row's key is the point itself |
| Benchmark.Keys | run_benchmarks.py:236-239 | each row's key is its model, input size and batch size, in order |
| Benchmark.BenchmarkPoint | run_benchmarks.py:225-254 | one point's body is the definition `PointResult`, and `None` is the caught exception |
| Benchmark.BenchmarkRow | run_benchmarks.py:224-254 | the batch-size loop is the definition `Row` |
| Benchmark.BlockStep | run_benchmarks.py:223-224 | one more input size appends that size's row of batch sizes to the block |
| Benchmark.CollectStep | run_benchmarks.py:212-223 | one more model appends its block when it loads, and nothing when it does not |
| Benchmark.BenchmarkModel | run_benchmarks.py:218-254 | the input-size loop is the definition `Block` over the model's input sizes |
| Benchmark.RunBenchmark | run_benchmarks.py:208-260 | the whole run is the definition `Collect` over the active models |
| BenchmarkFacts.PointFails | run_benchmarks.py:225-254 | a point has no row exactly when something in its `try` block raises (the loader, the complexity count or a forward pass), its loader is empty, or no timed iteration is asked for |
| BenchmarkFacts.PointRow | run_benchmarks.py:236-249 | a measured point's row carries its own key, a positive mean between min and max, `fps == batch / mean` and `throughput == fps` |
| BenchmarkFacts.CollectInOrder | run_benchmarks.py:212-224 | the rows' keys appear in loop order (models, then sizes, then batches), so there are never more rows than points |
| BenchmarkFacts.CollectKeys | run_benchmarks.py:212-258 | a point has a row exactly when its model is active and loads, the loops visit it, and it was measured |
| BenchmarkFacts.CollectMeasured | run_benchmarks.py:212-258 | every row belongs to a model that loaded and is exactly what its own point measured, with the rate identities |
| BenchmarkFacts.CollectAppend | run_benchmarks.py:212-258 | a failure in one model does not affect the others: the run over `a + b` is the run over `a`, then over `b` |
| Benchmark.SaveResults | run_benchmarks.py:262-265 | saving does nothing exactly when there are no results, and otherwise saves the results unchanged |

## Left out

- File system, PIL, JSON output and the module-level driver (`gen_annotations.py:96-106`) are not modelled. The directory listing, the image sizes and the label files' lines are parameters.
- How a label file is cut into lines is not modelled. A line keeps its newline, and `strip` removes it.
- Coordinates are exact reals, not IEEE doubles, so no rounding appears in the boxes, areas or timings.
- `float()` accepts finite decimal literals only. Python also accepts `inf`, `infinity` and `nan`; the model rejects them.
- `int()` and `float()` read ASCII digits only; Python also accepts other Unicode decimal digits. Whitespace for `strip` and `split()` is the full `str.isspace` set. `int()` and `float()` skip the same set except the separators U+001C to U+001F, which they reject.
- Exceptions are one `ConvertError` per cause (unopenable image, non-integer stem, malformed label line), not Python's exception types. A failure aborts the whole conversion, as the uncaught exception does.
- `torch`, `timm`, `ptflops`, the data loader and the device are oracles: `loads`, `probe` and the per-pass elapsed times. The device chooses where the model and the batches are placed and which synchronisation calls are made; failures there are part of `loads` and `probe`.
- Elapsed times are positive reals. A zero mean time would give an infinite fps in numpy, and that case is not modelled.
- Split: its own contract states only that the words are non-empty and free of whitespace. That they are exactly the maximal runs of non-whitespace is the separate lemma `SplitRuns`.
- ReplaceAll: its own contract states only the length for a same-length replacement. That every occurrence is replaced, left to right, is the separate lemma `ReplaceAllFirst`, with `ReplaceAllAbsent` for the text after the last one.
- AddImageRecords: states the image record and the number of annotations only. Which annotation comes from which label line is `AddImageAnnotations` with `ImageAnnotationsLines`.
- ParseInt, ParseFloat: their own contracts state the emptiness and sign laws only. Their values are the separate lemmas `ParseIntDigits`, `ParseIntNegative`, `ParseIntLeadingZeros`, `ParseFloatDigits` and `ParseFloatFraction`, and what they reject is `ParseIntAlphabet` and `ParseFloatAlphabet`.
- NumberStrip: its own contract states the ends only. That only number whitespace is removed is the separate lemma `NumberStripIsSlice`.
- PointResult: its own contract states the key only. The measured values are the separate lemmas `PointFails` and `PointRow`.
- Benchmark.Summarize: the standard deviation and the median of the timings are not computed.
- `format_size`, the parameter-count print, pandas, the CSV and JSON files, the timestamped directory, the summary table, `tqdm` and all printing are not modelled.
- The loader's shuffling and the contents of the batches are not modelled; only the number of batches it delivers matters.
- The exact number of points of the static configuration is not stated. Only the general bound (never more rows than points) is proved.
