/** `convert_json_to_txt`: where the label file of an annotation lives, and
    how converting a record appends one line per shape to it. */
module LabelFile {
  import opened Shapes

  /** `os.path.basename` on a POSIX path: everything after the last '/'. */
  function Basename(path: string): (name: string)
    ensures '/' !in name
    ensures |name| <= |path| && name == path[|path| - |name|..]
    ensures |name| < |path| ==> path[|path| - |name| - 1] == '/'
  {
    if path == [] || path[|path| - 1] == '/' then []
    else Basename(path[..|path| - 1]) + [path[|path| - 1]]
  }

  /** Python's `name[:-5]`: the name without its last five characters, and
      empty when it is shorter than that. */
  function DropLastFive(name: string): (stem: string)
    ensures stem <= name
    ensures |name| >= 5 ==> |stem| == |name| - 5
    ensures |name| < 5 ==> stem == []
  {
    if |name| >= 5 then name[..|name| - 5] else []
  }

  /** The file the labels of `jsonPath` are appended to: a `.txt` file
      directly inside `txtPath`, whose stem comes from the base name. */
  function LabelFilePath(jsonPath: string, txtPath: string): (path: string)
    ensures |path| >= |txtPath| + 5
    ensures path[..|txtPath| + 1] == txtPath + "/" && path[|path| - 4..] == ".txt"
  {
    txtPath + "/" + DropLastFive(Basename(jsonPath)) + ".txt"
  }

  /** The label file sits directly inside `txtPath`: its stem holds no '/'
      and is the start of the annotation's base name. */
  lemma LabelFileInTxtDir(jsonPath: string, txtPath: string)
    ensures var path := LabelFilePath(jsonPath, txtPath);
      && '/' !in path[|txtPath| + 1..|path| - 4]
      && path[|txtPath| + 1..|path| - 4] <= Basename(jsonPath)
  {
    var path := LabelFilePath(jsonPath, txtPath);
    assert path[|txtPath| + 1..|path| - 4] == DropLastFive(Basename(jsonPath));
  }

  /** The base name of `dir/name` is `name`, whatever the directory. */
  lemma {:induction false} BasenameOfJoin(dir: string, name: string)
    requires '/' !in name
    ensures Basename(dir + "/" + name) == name
  {
    var p := dir + "/" + name;
    if name == [] {
      assert p[|p| - 1] == '/';
    } else {
      var front := name[..|name| - 1];
      assert p[..|p| - 1] == dir + "/" + front;
      assert p[|p| - 1] == name[|name| - 1];
      BasenameOfJoin(dir, front);
      assert name == front + [name[|name| - 1]];
    }
  }

  /** An annotation `dir/stem.json` gets the label file `txtPath/stem.txt`. */
  lemma LabelFilePathOfJson(dir: string, stem: string, txtPath: string)
    requires '/' !in stem
    ensures LabelFilePath(dir + "/" + stem + ".json", txtPath) == txtPath + "/" + stem + ".txt"
  {
    BasenameOfJoin(dir, stem + ".json");
    assert dir + "/" + stem + ".json" == dir + "/" + (stem + ".json");
    assert DropLastFive(stem + ".json") == stem;
  }

  /** Only the base name counts: annotations with the same file name in two
      directories share one label file, so their lines end up together. */
  lemma SameBasenameSameLabelFile(dir1: string, dir2: string, name: string, txtPath: string)
    requires '/' !in name
    ensures LabelFilePath(dir1 + "/" + name, txtPath) == LabelFilePath(dir2 + "/" + name, txtPath)
  {
    BasenameOfJoin(dir1, name);
    BasenameOfJoin(dir2, name);
  }

  /** What converting a record's shapes writes: the lines produced before the
      first failing shape, and the failure that stopped it, if any. */
  datatype Outcome = Outcome(written: seq<Line>, failure: Option<Error>)

  /** The shapes are converted in order; the first shape that fails stops the
      conversion, and the lines of the shapes before it stay written. */
  function ConvertShapes(shapes: seq<Shape>, labels: seq<string>, w: int, h: int): (o: Outcome)
    decreases |shapes|
    ensures |o.written| <= |shapes|
    ensures forall i :: 0 <= i < |o.written| ==> ShapeLine(shapes[i], labels, w, h) == Ok(o.written[i])
    ensures o.failure.None? ==> |o.written| == |shapes|
    ensures o.failure.Some? ==> |o.written| < |shapes| && ShapeLine(shapes[|o.written|], labels, w, h) == Err(o.failure.value)
  {
    if shapes == [] then Outcome([], None)
    else
      var before := ConvertShapes(shapes[..|shapes| - 1], labels, w, h);
      if before.failure.Some? then before
      else match ShapeLine(shapes[|shapes| - 1], labels, w, h)
        case Ok(line) => Outcome(before.written + [line], None)
        case Err(e) => Outcome(before.written, Some(e))
  }

  /** The conversion succeeds exactly when every shape converts. */
  lemma ConvertSucceedsIff(shapes: seq<Shape>, labels: seq<string>, w: int, h: int)
    ensures ConvertShapes(shapes, labels, w, h).failure.None?
        <==> forall i :: 0 <= i < |shapes| ==> ShapeLine(shapes[i], labels, w, h).Ok?
  {
  }

  /** When every shape converts, exactly one line per shape is written, in
      shape order. */
  lemma ConvertAllShapes(shapes: seq<Shape>, labels: seq<string>, w: int, h: int, lines: seq<Line>)
    requires |lines| == |shapes|
    requires forall i :: 0 <= i < |shapes| ==> ShapeLine(shapes[i], labels, w, h) == Ok(lines[i])
    ensures ConvertShapes(shapes, labels, w, h) == Outcome(lines, None)
  {
  }

  /** When shape k is the first that fails, the lines of shapes 0 .. k-1 are
      written and the conversion stops with shape k's error. */
  lemma ConvertStopsAt(shapes: seq<Shape>, labels: seq<string>, w: int, h: int, lines: seq<Line>, e: Error)
    requires |lines| < |shapes|
    requires forall i :: 0 <= i < |lines| ==> ShapeLine(shapes[i], labels, w, h) == Ok(lines[i])
    requires ShapeLine(shapes[|lines|], labels, w, h) == Err(e)
    ensures ConvertShapes(shapes, labels, w, h) == Outcome(lines, Some(e))
  {
  }

  /** A shape whose label is not in the list makes the conversion fail, at
      that shape or at an earlier one. */
  lemma UnknownLabelFails(shapes: seq<Shape>, labels: seq<string>, w: int, h: int, k: nat)
    requires k < |shapes| && shapes[k].labelName !in labels
    ensures var o := ConvertShapes(shapes, labels, w, h);
      o.failure.Some? && |o.written| <= k
  {
  }

  /** The contents of the file at `path`; a file that does not exist yet reads
      as empty. */
  function Contents(files: map<string, seq<Line>>, path: string): seq<Line>
  {
    if path in files then files[path] else []
  }

  /** The label files after `lines` are written to the end of the file at
      `path`: that file holds what it held before, followed by the lines; a
      missing file is created; no other file changes. */
  function AppendLines(files: map<string, seq<Line>>, path: string, lines: seq<Line>): map<string, seq<Line>>
  {
    files[path := Contents(files, path) + lines]
  }

  /** What appending does to every file: the file at `path` exists and ends
      with the lines after its old contents; every other file is as it was. */
  lemma AppendLinesEffect(files: map<string, seq<Line>>, path: string, lines: seq<Line>)
    ensures var after := AppendLines(files, path, lines);
      && path in after && Contents(after, path) == Contents(files, path) + lines
      && (forall p :: p != path ==> Contents(after, p) == Contents(files, p))
      && forall p :: p in files ==> p in after
  {
  }

  /** Writing a then b to one file is writing a + b. */
  lemma AppendLinesTwice(files: map<string, seq<Line>>, path: string, a: seq<Line>, b: seq<Line>)
    ensures AppendLines(AppendLines(files, path, a), path, b) == AppendLines(files, path, a + b)
  {
    assert Contents(files, path) + a + b == Contents(files, path) + (a + b);
  }

  /** Opening a file for appending before writing to it changes nothing. */
  lemma AppendAfterOpen(files: map<string, seq<Line>>, path: string, lines: seq<Line>)
    ensures AppendLines(AppendLines(files, path, []), path, lines) == AppendLines(files, path, lines)
  {
    AppendLinesTwice(files, path, [], lines);
    assert [] + lines == lines;
  }

  /** The label files after converting `data`: the lines written are
      appended to its label file. */
  function AfterConversion(files: map<string, seq<Line>>, jsonPath: string, txtPath: string,
                           labels: seq<string>, data: Annotation): map<string, seq<Line>>
  {
    AppendLines(files, LabelFilePath(jsonPath, txtPath), ConvertShapes(data.shapes, labels, data.imageWidth, data.imageHeight).written)
  }

  /** Appending never truncates: converting the same record twice leaves its
      lines in the label file twice, after whatever was there before. */
  lemma ConvertTwiceDuplicates(files: map<string, seq<Line>>, jsonPath: string, txtPath: string,
                               labels: seq<string>, data: Annotation)
    ensures var path := LabelFilePath(jsonPath, txtPath);
      var lines := ConvertShapes(data.shapes, labels, data.imageWidth, data.imageHeight).written;
      var twice := AfterConversion(AfterConversion(files, jsonPath, txtPath, labels, data), jsonPath, txtPath, labels, data);
      && Contents(twice, path) == Contents(files, path) + lines + lines
      && forall p :: p != path ==> Contents(twice, p) == Contents(files, p)
  {
    var path := LabelFilePath(jsonPath, txtPath);
    var lines := ConvertShapes(data.shapes, labels, data.imageWidth, data.imageHeight).written;
    AppendLinesTwice(files, path, lines, lines);
    AppendLinesEffect(files, path, lines + lines);
    assert Contents(files, path) + (lines + lines) == Contents(files, path) + lines + lines;
  }

  /** The label files, by path: the part of the file system the conversion
      writes to. */
  class LabelStore {
    var files: map<string, seq<Line>>

    constructor (files: map<string, seq<Line>>)
      ensures this.files == files
    {
      this.files := files;
    }

    /** Opening in append mode creates a missing file, empty, and keeps the
        contents of an existing one. */
    method Open(path: string)
      modifies this
      ensures files == AppendLines(old(files), path, [])
    {
      assert Contents(files, path) + [] == Contents(files, path);
      files := files[path := Contents(files, path)];
    }

    /** Writes one line at the end of the file. */
    method Append(path: string, line: Line)
      modifies this
      ensures files == AppendLines(old(files), path, [line])
    {
      files := files[path := Contents(files, path) + [line]];
    }
  }

  /** The line for one shape, built as the loop body builds `new_line`: the
      class index first, then the polygon's vertices one by one, or the
      rectangle's four values. */
  method NewLine(shape: Shape, labels: seq<string>, w: int, h: int) returns (r: Result<Line>)
    ensures r == ShapeLine(shape, labels, w, h)
  {
    var index := LabelIndex(labels, shape.labelName);
    if index.None? {
      return Err(UnknownLabel(shape.labelName));
    }
    var values: seq<real> := [];
    if shape.shapeType == "polygon" {
      var points := shape.points;
      var i := 0;
      while i < |points|
        invariant 0 <= i <= |points|
        invariant i == 0 ==> values == []
        invariant i > 0 ==> w != 0 && h != 0 && values == NormalizedVertices(points[..i], w as real, h as real)
      {
        if w == 0 || h == 0 {
          return Err(ZeroDivision);
        }
        var p := points[i];
        assert points[..i + 1][..i] == points[..i];
        values := values + [p.x / w as real, p.y / h as real];
        i := i + 1;
      }
      assert points[..|points|] == points;
      assert Ok(Line(index.value, values)) == ShapeLine(shape, labels, w, h);
    }
    if shape.shapeType == "rectangle" {
      if |shape.points| < 2 {
        return Err(MissingPoint);
      }
      if w == 0 || h == 0 {
        return Err(ZeroDivision);
      }
      var box := BoxValues(shape.points[0], shape.points[1], w as real, h as real);
      assert values + box == box;
      values := values + box;
    }
    return Ok(Line(index.value, values));
  }

  /** The loop of `convert_json_to_txt` over the shapes, writing to the
      opened label file at `path`: one line per shape, stopping at the first
      shape that fails. */
  method WriteShapeLines(path: string, shapes: seq<Shape>, labels: seq<string>, w: int, h: int, store: LabelStore)
    returns (failure: Option<Error>)
    requires path in store.files
    modifies store
    ensures store.files == AppendLines(old(store.files), path, ConvertShapes(shapes, labels, w, h).written)
    ensures failure == ConvertShapes(shapes, labels, w, h).failure
  {
    ghost var lines: seq<Line> := [];
    assert store.files == AppendLines(store.files, path, lines) by {
      assert Contents(store.files, path) + [] == store.files[path];
    }
    var i := 0;
    while i < |shapes|
      invariant 0 <= i <= |shapes| && |lines| == i
      invariant forall j :: 0 <= j < i ==> ShapeLine(shapes[j], labels, w, h) == Ok(lines[j])
      invariant store.files == AppendLines(old(store.files), path, lines)
    {
      var r := NewLine(shapes[i], labels, w, h);
      if r.Err? {
        ConvertStopsAt(shapes, labels, w, h, lines, r.error);
        return Some(r.error);
      }
      store.Append(path, r.value);
      AppendLinesTwice(old(store.files), path, lines, [r.value]);
      lines := lines + [r.value];
      i := i + 1;
    }
    ConvertAllShapes(shapes, labels, w, h, lines);
    return None;
  }

  /** `convert_json_to_txt(json_path, txt_path, labels_list)` on the decoded
      record `data`: opens the label file in append mode and writes one line
      per shape, stopping at the first shape that fails. */
  method ConvertJsonToTxt(jsonPath: string, txtPath: string, labels: seq<string>, data: Annotation, store: LabelStore)
    returns (failure: Option<Error>)
    modifies store
    ensures store.files == AfterConversion(old(store.files), jsonPath, txtPath, labels, data)
    ensures failure == ConvertShapes(data.shapes, labels, data.imageWidth, data.imageHeight).failure
  {
    var path := LabelFilePath(jsonPath, txtPath);
    store.Open(path);
    failure := WriteShapeLines(path, data.shapes, labels, data.imageWidth, data.imageHeight, store);
    AppendAfterOpen(old(store.files), path, ConvertShapes(data.shapes, labels, data.imageWidth, data.imageHeight).written);
  }
}
