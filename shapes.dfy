/** The annotation records read from LabelMe JSON files and the detection
    lines they turn into: label lookup and the coordinate formulas that
    normalise one shape against the image size. */
module Shapes {

  datatype Option<T> = None | Some(value: T)

  /** The exceptions that stop a conversion part-way. */
  datatype Error =
    | UnknownLabel(name: string)  // `labels_list.index` raises ValueError
    | ZeroDivision                 // an image side of 0 used as a divisor
    | MissingPoint                 // a rectangle with fewer than two points (IndexError)

  datatype Result<T> = Ok(value: T) | Err(error: Error)

  /** A vertex in pixel units, as the annotation tool stores it. */
  datatype Point = Point(x: real, y: real)

  datatype Shape = Shape(labelName: string, shapeType: string, points: seq<Point>)

  /** One decoded annotation file: the image size and its shapes, in order. */
  datatype Annotation = Annotation(imageWidth: int, imageHeight: int, shapes: seq<Shape>)

  /** One line of a YOLO label file: the class index, then the coordinates. */
  datatype Line = Line(classIndex: nat, values: seq<real>)

  /** `labels.index(name)`: the position of the first occurrence, or None
      where Python raises ValueError. */
  function LabelIndex(labels: seq<string>, name: string): (r: Option<nat>)
    ensures r.Some? <==> name in labels
    ensures r.Some? ==> r.value < |labels| && labels[r.value] == name
    ensures r.Some? ==> forall j :: 0 <= j < r.value ==> labels[j] != name
  {
    if labels == [] then None
    else if labels[0] == name then Some(0)
    else match LabelIndex(labels[1..], name)
      case None => None
      case Some(k) => Some(k + 1)
  }

  /** The coordinates a polygon contributes: every vertex as x / width,
      y / height, in vertex order. */
  function NormalizedVertices(points: seq<Point>, w: real, h: real): (r: seq<real>)
    requires w != 0.0 && h != 0.0
    ensures |r| == 2 * |points|
  {
    if points == [] then []
    else
      var last := points[|points| - 1];
      NormalizedVertices(points[..|points| - 1], w, h) + [last.x / w, last.y / h]
  }

  /** Value 2i of a normalised polygon is vertex i's x / width, value 2i + 1
      its y / height. */
  lemma {:induction false} NormalizedVertexAt(points: seq<Point>, w: real, h: real, i: nat)
    requires w != 0.0 && h != 0.0 && i < |points|
    ensures NormalizedVertices(points, w, h)[2 * i] == points[i].x / w
    ensures NormalizedVertices(points, w, h)[2 * i + 1] == points[i].y / h
  {
    var n := |points|;
    var front := NormalizedVertices(points[..n - 1], w, h);
    assert NormalizedVertices(points, w, h) == front + [points[n - 1].x / w, points[n - 1].y / h];
    if i < n - 1 {
      NormalizedVertexAt(points[..n - 1], w, h, i);
    }
  }

  /** Scales normalised coordinates back to pixels, pair by pair (an odd
      value left at the front is dropped). */
  function PixelVertices(values: seq<real>, w: real, h: real): (points: seq<Point>)
    decreases |values|
  {
    if |values| < 2 then []
    else
      PixelVertices(values[..|values| - 2], w, h) + [Point(values[|values| - 2] * w, values[|values| - 1] * h)]
  }

  /** The four values a rectangle contributes: centre x, centre y, width and
      height, from its first two points, with signed differences. */
  function BoxValues(p1: Point, p2: Point, w: real, h: real): (r: seq<real>)
    requires w != 0.0 && h != 0.0
    ensures |r| == 4
  {
    [(p2.x + p1.x) / (2.0 * w), (p2.y + p1.y) / (2.0 * h), (p2.x - p1.x) / w, (p2.y - p1.y) / h]
  }

  /** The line a shape produces on an image of w by h pixels: the label is
      looked up first, then the coordinates follow its shape type. A shape
      of any other type still gives a line, holding only the class index. */
  function ShapeLine(shape: Shape, labels: seq<string>, w: int, h: int): (r: Result<Line>)
    ensures shape.labelName !in labels <==> r == Err(UnknownLabel(shape.labelName))
    ensures r.Ok? ==> r.value.classIndex < |labels| && labels[r.value.classIndex] == shape.labelName
    ensures r.Ok? ==> forall j :: 0 <= j < r.value.classIndex ==> labels[j] != shape.labelName
  {
    match LabelIndex(labels, shape.labelName)
    case None => Err(UnknownLabel(shape.labelName))
    case Some(k) =>
      if shape.shapeType == "polygon" then
        if |shape.points| == 0 then Ok(Line(k, []))
        else if w == 0 || h == 0 then Err(ZeroDivision)
        else Ok(Line(k, NormalizedVertices(shape.points, w as real, h as real)))
      else if shape.shapeType == "rectangle" then
        if |shape.points| < 2 then Err(MissingPoint)
        else if w == 0 || h == 0 then Err(ZeroDivision)
        else Ok(Line(k, BoxValues(shape.points[0], shape.points[1], w as real, h as real)))
      else Ok(Line(k, []))
  }

  /** Scaling the normalised polygon back by the image size gives the
      original vertices: no vertex is dropped, merged or reordered. */
  lemma {:induction false} PolygonRoundTrip(points: seq<Point>, w: real, h: real)
    requires w != 0.0 && h != 0.0
    ensures PixelVertices(NormalizedVertices(points, w, h), w, h) == points
  {
    if points != [] {
      var n := |points|;
      var last := points[n - 1];
      var front := NormalizedVertices(points[..n - 1], w, h);
      var fx, fy := last.x / w, last.y / h;
      assert NormalizedVertices(points, w, h) == front + [fx, fy];
      PixelVerticesSnoc(front, fx, fy, w, h);
      PolygonRoundTrip(points[..n - 1], w, h);
      VertexRoundTrip(last, fx, fy, w, h);
      assert points == points[..n - 1] + [last];
    }
  }

  lemma PixelVerticesUnfold(v: seq<real>, w: real, h: real)
    requires |v| >= 2
    ensures PixelVertices(v, w, h) == PixelVertices(v[..|v| - 2], w, h) + [Point(v[|v| - 2] * w, v[|v| - 1] * h)]
  {
  }

  lemma PixelVerticesSnoc(values: seq<real>, fx: real, fy: real, w: real, h: real)
    ensures PixelVertices(values + [fx, fy], w, h) == PixelVertices(values, w, h) + [Point(fx * w, fy * h)]
  {
    var v := values + [fx, fy];
    assert v[..|v| - 2] == values && v[|v| - 2] == fx && v[|v| - 1] == fy;
    PixelVerticesUnfold(v, w, h);
    assert PixelVertices(v[..|v| - 2], w, h) == PixelVertices(values, w, h);
    assert Point(v[|v| - 2] * w, v[|v| - 1] * h) == Point(fx * w, fy * h);
  }

  lemma VertexRoundTrip(p: Point, fx: real, fy: real, w: real, h: real)
    requires w != 0.0 && h != 0.0
    requires fx == p.x / w && fy == p.y / h
    ensures Point(fx * w, fy * h) == p
  {
  }

  lemma ScaleBack(a: real, d: real)
    requires d != 0.0
    ensures (a / d) * d == a && (a * d) / d == a
  {
  }

  /** A box gives back its two corners (in image fractions): centre minus
      half the signed size is the first point, centre plus it the second. */
  lemma BoxCorners(p1: Point, p2: Point, w: real, h: real)
    requires w != 0.0 && h != 0.0
    ensures var r := BoxValues(p1, p2, w, h);
      && r[0] - r[2] / 2.0 == p1.x / w && r[0] + r[2] / 2.0 == p2.x / w
      && r[1] - r[3] / 2.0 == p1.y / h && r[1] + r[3] / 2.0 == p2.y / h
  {
  }

  /** The box size is a signed difference: on a real image it is negative
      exactly when the second point lies left of (above) the first. */
  lemma BoxSizeSign(p1: Point, p2: Point, w: real, h: real)
    requires w > 0.0 && h > 0.0
    ensures var r := BoxValues(p1, p2, w, h);
      && (r[2] < 0.0 <==> p2.x < p1.x)
      && (r[3] < 0.0 <==> p2.y < p1.y)
  {
  }

  /** A polygon with a known label: the class index followed by
      2 * |points| values, x / width then y / height per vertex. A polygon
      without points divides by nothing, so it succeeds on any image. */
  lemma PolygonLine(shape: Shape, labels: seq<string>, w: int, h: int)
    requires shape.shapeType == "polygon" && shape.labelName in labels
    requires |shape.points| == 0 || (w != 0 && h != 0)
    ensures ShapeLine(shape, labels, w, h).Ok?
    ensures var line := ShapeLine(shape, labels, w, h).value;
      && line.classIndex == LabelIndex(labels, shape.labelName).value
      && |line.values| == 2 * |shape.points|
      && forall i :: 0 <= i < |shape.points| ==>
           line.values[2 * i] == shape.points[i].x / w as real && line.values[2 * i + 1] == shape.points[i].y / h as real
  {
    if |shape.points| > 0 {
      forall i | 0 <= i < |shape.points| {
        NormalizedVertexAt(shape.points, w as real, h as real, i);
      }
    }
  }

  /** A rectangle with a known label and at least two points: exactly four
      values from points[0] and points[1]; later points play no part. */
  lemma RectangleLine(shape: Shape, labels: seq<string>, w: int, h: int)
    requires shape.shapeType == "rectangle" && shape.labelName in labels
    requires |shape.points| >= 2 && w != 0 && h != 0
    ensures ShapeLine(shape, labels, w, h).Ok?
    ensures var line := ShapeLine(shape, labels, w, h).value;
      var p1, p2, fw, fh := shape.points[0], shape.points[1], w as real, h as real;
      && line.classIndex == LabelIndex(labels, shape.labelName).value
      && line.values == [(p1.x + p2.x) / (2.0 * fw), (p1.y + p2.y) / (2.0 * fh), (p2.x - p1.x) / fw, (p2.y - p1.y) / fh]
      && ShapeLine(shape.(points := shape.points[..2]), labels, w, h) == ShapeLine(shape, labels, w, h)
  {
  }

  /** A shape that is neither a polygon nor a rectangle is not skipped: it
      yields a line with the class index and no coordinates. */
  lemma OtherShapeLine(shape: Shape, labels: seq<string>, w: int, h: int)
    requires shape.shapeType != "polygon" && shape.shapeType != "rectangle"
    requires shape.labelName in labels
    ensures ShapeLine(shape, labels, w, h) == Ok(Line(LabelIndex(labels, shape.labelName).value, []))
  {
  }

  /** A rectangle whose points are too few, or any shape needing division on
      an image with a zero side, fails even when its label is known. */
  lemma ShapeLineFailures(shape: Shape, labels: seq<string>, w: int, h: int)
    requires shape.labelName in labels
    ensures shape.shapeType == "rectangle" && |shape.points| < 2 ==> ShapeLine(shape, labels, w, h) == Err(MissingPoint)
    ensures ((shape.shapeType == "rectangle" && |shape.points| >= 2) || (shape.shapeType == "polygon" && |shape.points| > 0))
              && (w == 0 || h == 0)
            ==> ShapeLine(shape, labels, w, h) == Err(ZeroDivision)
  {
  }

  /** The corners of a w by h image, as a polygon, normalise to the unit square. */
  lemma SquareExample(name: string, labels: seq<string>, w: int, h: int)
    requires name in labels && w > 0 && h > 0
    ensures var fw, fh := w as real, h as real;
      var shape := Shape(name, "polygon", [Point(0.0, 0.0), Point(fw, 0.0), Point(fw, fh), Point(0.0, fh)]);
      ShapeLine(shape, labels, w, h) == Ok(Line(LabelIndex(labels, name).value, [0.0, 0.0, 1.0, 0.0, 1.0, 1.0, 0.0, 1.0]))
  {
    var fw, fh := w as real, h as real;
    var pts := [Point(0.0, 0.0), Point(fw, 0.0), Point(fw, fh), Point(0.0, fh)];
    var r := NormalizedVertices(pts, fw, fh);
    ScaleBack(1.0, fw);
    ScaleBack(1.0, fh);
    NormalizedVertexAt(pts, fw, fh, 0);
    NormalizedVertexAt(pts, fw, fh, 1);
    NormalizedVertexAt(pts, fw, fh, 2);
    NormalizedVertexAt(pts, fw, fh, 3);
    assert r == [0.0, 0.0, 1.0, 0.0, 1.0, 1.0, 0.0, 1.0];
  }

  /** Corners (10, 10) and (30, 50) on a 100 by 100 image: centre (0.2, 0.3),
      size 0.2 by 0.4. */
  lemma RectangleExample()
    ensures ShapeLine(Shape("cat", "rectangle", [Point(10.0, 10.0), Point(30.0, 50.0)]), ["cat", "dog"], 100, 100)
         == Ok(Line(0, [0.2, 0.3, 0.2, 0.4]))
  {
  }
}
