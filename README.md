# labelme_to_yolo in Dafny

A model of the two pieces of `labelme_to_yolo.py` that hold logic:

- **`convert_json_to_txt`**: a decoded LabelMe annotation record (image width, image height, and a list of shapes with a label, a shape type and pixel points) becomes YOLO label lines. Each line holds a class index and normalised coordinates, and the lines are appended to the label file `<txt_path>/<basename minus its last five characters>.txt`.
  - For each shape, in order: the label's index in the label list comes first.
  - A polygon then gives every vertex as `x / imageWidth`, `y / imageHeight`.
  - A rectangle gives centre x, centre y, width and height from its first two points, using signed differences.
  - A shape of any other type gives a line holding only its class index.
  - The first shape that fails stops the conversion. Lines already appended for earlier shapes stay in the file.
- **`split_dataset`**: the list of annotation files is shuffled in place after `random.seed(seed)`. It is then sliced at `int(train_ratio * N)` and `int(train_ratio * N + valid_ratio * N)`.

Files:

- `shapes.dfy` (module `Shapes`): the record datatypes, the label lookup and the per-shape line with its coordinate formulas.
- `label_file.dfy` (module `LabelFile`):
  - the label-file naming;
  - the shape-by-shape conversion as a specification function;
  - appending lines to a file, on a map from path to lines;
  - a `LabelStore` class holding the label files by path, which the conversion method appends to;
  - the imperative conversion itself: the per-shape loop that builds `new_line`, and the loop over the shapes that writes them.
- `split.dfy` (module `Split`):
  - Python's `int()` on floats and Python's slice-bound rules;
  - `random.shuffle` as an in-place Fisher–Yates loop over an array;
  - the slicing;
  - partition and size lemmas.

Points of the code's behaviour that are easy to misread:

- A shape whose type is neither `polygon` nor `rectangle` still gets a line, holding only its class index: line 51 writes `new_line` for every shape (`Shapes.OtherShapeLine`).
- The second cut truncates the sum, `int(train_ratio * N + valid_ratio * N)` (lines 70-71), rather than adding two truncated products. On three files with both ratios 0.5 the split is 1/2/0, not 1/1/1 (`Split.SecondCutTruncatesTheSum`).
- Lines are written one shape at a time (line 51). When a shape fails, the lines of the shapes before it stay in the label file (`LabelFile.ConvertStopsAt`).
- A polygon with no points never divides, so an image side of 0 does not make it fail (`Shapes.PolygonLine`).

The shuffle's random numbers are a parameter: `draw(seed, n, i)` is what `randbelow(i + 1)` answers at position `i` of an `n`-element list once the generator has been seeded with `seed`. The only fact the model uses about it is that the answer lies in `[0, i]`. The permutation therefore depends only on the seed and the input list, because it is a function of nothing else. It is proved to reorder the list without adding or losing any element.

## Model

| member | source | states |
|---|---|---|
| Shapes.LabelIndex | labelme_to_yolo.py:39 | `labels.index(name)`: present exactly when the name is in the list, and then the position of its first occurrence |
| Shapes.NormalizedVertices | labelme_to_yolo.py:41-42 | a polygon contributes exactly two values per vertex |
| Shapes.NormalizedVertexAt | labelme_to_yolo.py:41-42 | value 2i is vertex i's x / imageWidth and value 2i+1 its y / imageHeight, in vertex order |
| Shapes.BoxValues | labelme_to_yolo.py:46-49 | a rectangle contributes exactly four values; `BoxCorners` and `BoxSizeSign` state what they mean |
| Shapes.PolygonRoundTrip | labelme_to_yolo.py:40-42 | scaling the normalised values back by the image size gives the original vertices, so none is dropped, merged or reordered |
| Shapes.BoxCorners | labelme_to_yolo.py:43-50 | centre ∓ half the signed size gives back points[0] and points[1] as fractions of the image |
| Shapes.BoxSizeSign | labelme_to_yolo.py:48-49 | on an image of positive size, width (height) is negative exactly when the second point is left of (above) the first |
| Shapes.ShapeLine | labelme_to_yolo.py:39-50 | an unknown label is exactly the case that fails with UnknownLabel; a produced line carries the first index of the shape's label |
| Shapes.PolygonLine | labelme_to_yolo.py:40-42 | a polygon with a known label gives the class index and two values per point, x/W then y/H per vertex; a polygon without points succeeds even on an image side of 0 |
| Shapes.RectangleLine | labelme_to_yolo.py:43-50 | a rectangle gives exactly (x1+x2)/2W, (y1+y2)/2H, (x2−x1)/W, (y2−y1)/H from points 0 and 1; later points change nothing |
| Shapes.OtherShapeLine | labelme_to_yolo.py:39-51 | a shape of any other type yields a line with its class index and no coordinates |
| Shapes.ShapeLineFailures | labelme_to_yolo.py:41-49 | a rectangle with fewer than two points fails with MissingPoint; any division by a zero image side fails with ZeroDivision |
| Shapes.SquareExample | labelme_to_yolo.py:40-42 | the corners of a w×h image as a polygon give 0 0 1 0 1 1 0 1 |
| Shapes.RectangleExample | labelme_to_yolo.py:43-50 | corners (10,10) and (30,50) on a 100×100 image give 0.2 0.3 0.2 0.4 |
| LabelFile.Basename | labelme_to_yolo.py:35 | POSIX `os.path.basename`: the longest suffix of the path without a '/', preceded by a '/' unless it is the whole path |
| LabelFile.DropLastFive | labelme_to_yolo.py:35 | `name[:-5]` is a prefix of the name, five characters shorter, and empty for names under five characters |
| LabelFile.LabelFilePath | labelme_to_yolo.py:35-37 | the label file path starts with `txt_path/` and ends in `.txt` |
| LabelFile.LabelFileInTxtDir | labelme_to_yolo.py:35-37 | the label file lies directly inside `txt_path`: its stem holds no '/' and is the start of the annotation's base name |
| LabelFile.BasenameOfJoin | labelme_to_yolo.py:35 | the base name of `dir/name` is `name` |
| LabelFile.LabelFilePathOfJson | labelme_to_yolo.py:35-37 | `dir/stem.json` is written to `txt_path/stem.txt` |
| LabelFile.SameBasenameSameLabelFile | labelme_to_yolo.py:35-37 | annotations with the same file name in different directories share one label file |
| LabelFile.ConvertShapes | labelme_to_yolo.py:38-51 | every written line is its shape's line, in shape order; success writes one line per shape; a failure comes from the shape right after the written ones |
| LabelFile.ConvertSucceedsIff | labelme_to_yolo.py:38-51 | the conversion succeeds exactly when every shape converts |
| LabelFile.ConvertAllShapes | labelme_to_yolo.py:38-51 | when every shape converts, the lines written are exactly the shapes' lines, one per shape |
| LabelFile.ConvertStopsAt | labelme_to_yolo.py:38-51 | when shape k is the first to fail, the lines of shapes 0..k−1 stay written and the conversion reports shape k's error |
| LabelFile.UnknownLabelFails | labelme_to_yolo.py:39 | a shape whose label is missing from the list makes the conversion fail at or before that shape |
| LabelFile.AppendLinesEffect | labelme_to_yolo.py:37-51 | appending to a file leaves it existing with its old contents followed by the lines, and every other file unchanged |
| LabelFile.AppendLinesTwice | labelme_to_yolo.py:51 | appending a and then b to one file is appending a + b |
| LabelFile.ConvertTwiceDuplicates | labelme_to_yolo.py:37-51 | append mode: converting a record twice leaves its lines twice after the previous contents, and no other file changes |
| LabelFile.LabelStore.Open | labelme_to_yolo.py:37 | opening in append mode is appending no lines: a missing file is created empty, an existing file keeps its contents |
| LabelFile.LabelStore.Append | labelme_to_yolo.py:51 | a write appends exactly that one line to that file |
| LabelFile.NewLine | labelme_to_yolo.py:39-50 | the line built for one shape, vertex by vertex, is the one `ShapeLine` specifies, failures included |
| LabelFile.WriteShapeLines | labelme_to_yolo.py:38-51 | the loop over the shapes appends exactly the lines `ConvertShapes` writes to the opened file and reports its failure |
| LabelFile.ConvertJsonToTxt | labelme_to_yolo.py:32-51 | the label file becomes its old contents followed by the converted lines; no other file changes; the failure reported is the conversion's |
| Split.Trunc | labelme_to_yolo.py:69-71 | `int()` of a float truncates toward zero |
| Split.Scaled | labelme_to_yolo.py:69-71 | `ratio * len(json_list)` is not negative for a ratio that is not negative |
| Split.PySlice | labelme_to_yolo.py:69-71 | a Python slice is no longer than the list, equals the ordinary slice for in-range ordered bounds, is empty when the bounds cross, a prefix from 0 and a suffix up to the end |
| Split.Slices | labelme_to_yolo.py:69-71 | train is a prefix of the list and test a suffix, and no slice is longer than the list |
| Split.CutsOrdered | labelme_to_yolo.py:69-71 | with non-negative ratios 0 <= int(tr·N) <= int(tr·N + vr·N) |
| Split.ThreeSlices | labelme_to_yolo.py:69-71 | slicing at two ordered non-negative cuts covers the list, partitions its multiset and gives sizes min(N, c1), min(N, c2) − min(N, c1) and the rest |
| Split.SlicesCoverIff | labelme_to_yolo.py:69-71 | train ++ valid ++ test is the list exactly when the first cut, read as a slice bound, does not lie past the second |
| Split.SlicesPartition | labelme_to_yolo.py:69-71 | with non-negative ratios the three slices concatenate to the list and partition its multiset |
| Split.SliceSizes | labelme_to_yolo.py:69-71 | with the cuts computed in exact arithmetic, train has min(N, int(tr·N)) elements, train and valid together min(N, int(tr·N + vr·N)), and test the rest |
| Split.ZeroRatios | labelme_to_yolo.py:69-71 | both ratios 0: train and valid are empty and test is the whole list |
| Split.EmptyList | labelme_to_yolo.py:69-71 | an empty list gives three empty slices |
| Split.RatiosReachingOne | labelme_to_yolo.py:70-71 | in exact arithmetic, non-negative ratios summing to at least 1 leave test empty and train ++ valid the whole list |
| Split.SecondCutReachesEnd | labelme_to_yolo.py:70 | non-negative ratios summing to at least 1 put the second cut at or past N |
| Split.SecondCutTruncatesTheSum | labelme_to_yolo.py:70-71 | the second cut truncates the sum: 3 files at 0.5/0.5 split 1/2/0, not 1/1/1 |
| Split.Swap | labelme_to_yolo.py:67 | a swap exchanges exactly the two positions and leaves every other position alone |
| Split.ShuffleFrom | labelme_to_yolo.py:67 | the remaining shuffle steps keep the length and never touch positions above the current one |
| Split.Shuffled | labelme_to_yolo.py:66-67 | the seeded shuffle keeps the length and leaves a one-element list as it is |
| Split.ShuffleFromPermutes | labelme_to_yolo.py:67 | each remaining step of the shuffle only swaps, keeping the length and the multiset |
| Split.ShuffledPermutes | labelme_to_yolo.py:66-67 | the seeded shuffle is a permutation of the list |
| Split.SplitIsPartition | labelme_to_yolo.py:66-73 | with non-negative ratios the three returned lists partition the input multiset |
| Split.Shuffle | labelme_to_yolo.py:67 | the array is reordered in place into the seeded permutation of its old contents |
| Split.SplitDataset | labelme_to_yolo.py:54-73 | the caller's list is shuffled in place; the three results are its slices at the truncated cuts; with non-negative ratios they partition the old contents |

## Left out

- `find_json_files` (lines 9-21): a recursive directory walk, which is file-system I/O.
- `json.load` (line 33): the model starts from an already decoded `Annotation`. Missing keys (KeyError) and points with fewer than two coordinates are not modelled.
- `create_yaml_file` (lines 76-87): YAML output through an external library; its only computation is `nc = len(labels_list)`.
- The `__main__` block (lines 90-153): argument parsing, directory creation, image copying and the loops that call the two functions.
- The Mersenne Twister behind `random.seed` / `random.randbelow`: its answers are the parameter `draw`, constrained only to the range `randbelow` guarantees. The Fisher–Yates loop follows CPython's `random.shuffle`, which is not part of this model's source files.
- Floating point: coordinates, ratios and their products are exact `real`s. Rounding (which can lower a cut point by one, see the two `Split` lines below), NaN, infinities and ratios given as None (which Python rejects with TypeError) are not modelled.
- Line text: lines are a class index plus a list of values. The f-string rendering of floats, the spaces and the newline are not modelled.
- Split.RatiosReachingOne: the model multiplies exact reals. In floating point `tr * N + vr * N` can fall just below N even when the ratios sum to 1.0: with ratios 0.7 and 0.3 on 3 files, `0.7*3 + 0.3*3` is 2.9999999999999996, so the program cuts at 2 and its test slice holds one file where the model's holds none.
- Split.SliceSizes: for the same reason either cut of the program can be one lower than the model's: `int(0.7*90)` is 62 in floating point, where the model's first cut is 63.
- Split.SplitDataset: the default `seed=42` of `split_dataset` (line 54) is not modelled; the seed is always passed.
- Split.Shuffle: `random.seed` (line 66) reseeds Python's process-wide generator, which later calls to `random` also see; the model passes the seed to the shuffle alone.
- LabelFile.Basename: models the POSIX `os.path.basename`, which splits only at '/'. The Windows version, which also splits at `\` and after a drive colon, is not modelled.
- I/O failures and closing the files on every exit path are not modelled; the label files are a map from path to lines.
