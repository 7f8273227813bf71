/**
 The element registry of the editor as pure list transforms: what each add,
 update and remove handler computes from the previous list, and the order in
 which the canvas paints the four lists.
 */
module Registry {
  import opened Elements
  import opened Lists

  const NewTextLabel: string := "New Text"

  // ---------------------------------------------------------------- adding

  /** `addText`: one text labelled "New Text" at the origin, appended at the end. */
  function AppendText(texts: seq<Text>, id: int): (r: seq<Text>)
    ensures |r| == |texts| + 1 && r[..|texts|] == texts
    ensures r[|texts|] == Text(id, "New Text", 0.0, 0.0)
  {
    texts + [Text(id, NewTextLabel, 0.0, 0.0)]
  }

  /** `addRectangle` and `addCircle`: one unit-scale shape at the origin, appended at the end. */
  function AppendShape(shapes: seq<Shape>, id: int): (r: seq<Shape>)
    ensures |r| == |shapes| + 1 && r[..|shapes|] == shapes
    ensures r[|shapes|] == Shape(id, 0.0, 0.0, 1.0)
  {
    shapes + [Shape(id, 0.0, 0.0, 1.0)]
  }

  /** The picker produced something usable: not canceled and at least one asset. */
  predicate Picked(result: PickerResult) {
    !result.canceled && result.assets.Some? && |result.assets.value| > 0
  }

  /** The append step of `addImage`: the first asset's uri at the origin, unit scale; nothing otherwise. */
  function AppendPicked(images: seq<Image>, id: int, result: PickerResult): (r: seq<Image>)
    ensures Picked(result) ==> |r| == |images| + 1 && r[..|images|] == images
    ensures Picked(result) ==> r[|images|] == Image(id, result.assets.value[0].uri, 0.0, 0.0, 1.0)
    ensures !Picked(result) ==> r == images
  {
    if Picked(result) then images + [Image(id, result.assets.value[0].uri, 0.0, 0.0, 1.0)] else images
  }

  // -------------------------------------------------------------- updating

  /** `updateText`: the matching texts get the new label and keep id and position. */
  function SetLabel(texts: seq<Text>, id: int, newText: string): (r: seq<Text>)
    ensures |r| == |texts|
    ensures forall i :: 0 <= i < |texts| && texts[i].id == id ==>
      r[i].caption == newText && r[i].id == id && r[i].x == texts[i].x && r[i].y == texts[i].y
    ensures forall i :: 0 <= i < |texts| && texts[i].id != id ==> r[i] == texts[i]
    ensures (forall i :: 0 <= i < |texts| ==> texts[i].id != id) ==> r == texts
  {
    MapWhere(texts, TextId, id, (t: Text) => t.(caption := newText))
  }

  /** `updateTextPosition`: the matching texts move to (x, y) and keep id and label. */
  function SetTextPosition(texts: seq<Text>, id: int, x: real, y: real): (r: seq<Text>)
    ensures |r| == |texts|
    ensures forall i :: 0 <= i < |texts| && texts[i].id == id ==>
      r[i].x == x && r[i].y == y && r[i].id == id && r[i].caption == texts[i].caption
    ensures forall i :: 0 <= i < |texts| && texts[i].id != id ==> r[i] == texts[i]
    ensures (forall i :: 0 <= i < |texts| ==> texts[i].id != id) ==> r == texts
  {
    MapWhere(texts, TextId, id, (t: Text) => t.(x := x, y := y))
  }

  /** `updateRectangleTransform` and `updateCircleTransform`: the matching shapes take (x, y, scale). */
  function SetShapeTransform(shapes: seq<Shape>, id: int, x: real, y: real, scale: real): (r: seq<Shape>)
    ensures |r| == |shapes|
    ensures forall i :: 0 <= i < |shapes| && shapes[i].id == id ==> r[i] == Shape(id, x, y, scale)
    ensures forall i :: 0 <= i < |shapes| && shapes[i].id != id ==> r[i] == shapes[i]
    ensures (forall i :: 0 <= i < |shapes| ==> shapes[i].id != id) ==> r == shapes
  {
    MapWhere(shapes, ShapeId, id, (s: Shape) => s.(x := x, y := y, scale := scale))
  }

  /** `updateImageTransform`: the matching images take (x, y, scale) and keep their uri. */
  function SetImageTransform(images: seq<Image>, id: int, x: real, y: real, scale: real): (r: seq<Image>)
    ensures |r| == |images|
    ensures forall i :: 0 <= i < |images| && images[i].id == id ==>
      r[i] == Image(id, images[i].uri, x, y, scale)
    ensures forall i :: 0 <= i < |images| && images[i].id != id ==> r[i] == images[i]
    ensures (forall i :: 0 <= i < |images| ==> images[i].id != id) ==> r == images
  {
    MapWhere(images, ImageId, id, (m: Image) => m.(x := x, y := y, scale := scale))
  }

  // -------------------------------------------------------------- removing

  /**
   The `removeSelected` filter on texts: no survivor carries the selected id,
   every other text survives as often as it occurred (`Lists.WithoutCounts`),
   and relative order is kept (`Lists.WithoutAppend`).
   */
  function TextsWithout(texts: seq<Text>, sel: Option<int>): (r: seq<Text>)
    ensures forall i :: 0 <= i < |r| ==> r[i] in texts && Some(r[i].id) != sel
    ensures forall i :: 0 <= i < |texts| && Some(texts[i].id) != sel ==> texts[i] in r
    ensures (forall i :: 0 <= i < |texts| ==> Some(texts[i].id) != sel) ==> r == texts
  {
    WithoutAbsentWhen(texts, TextId, sel);
    Without(texts, TextId, sel)
  }

  /** The `removeSelected` filter on rectangles or circles, with the same guarantees. */
  function ShapesWithout(shapes: seq<Shape>, sel: Option<int>): (r: seq<Shape>)
    ensures forall i :: 0 <= i < |r| ==> r[i] in shapes && Some(r[i].id) != sel
    ensures forall i :: 0 <= i < |shapes| && Some(shapes[i].id) != sel ==> shapes[i] in r
    ensures (forall i :: 0 <= i < |shapes| ==> Some(shapes[i].id) != sel) ==> r == shapes
  {
    WithoutAbsentWhen(shapes, ShapeId, sel);
    Without(shapes, ShapeId, sel)
  }

  /** The `removeSelected` filter on images, with the same guarantees. */
  function ImagesWithout(images: seq<Image>, sel: Option<int>): (r: seq<Image>)
    ensures forall i :: 0 <= i < |r| ==> r[i] in images && Some(r[i].id) != sel
    ensures forall i :: 0 <= i < |images| && Some(images[i].id) != sel ==> images[i] in r
    ensures (forall i :: 0 <= i < |images| ==> Some(images[i].id) != sel) ==> r == images
  {
    WithoutAbsentWhen(images, ImageId, sel);
    Without(images, ImageId, sel)
  }

  // --------------------------------------------------------------- canvas

  /** The painted canvas: all texts in list order, then rectangles, then circles, then images. */
  function Canvas(texts: seq<Text>, rectangles: seq<Shape>, circles: seq<Shape>, images: seq<Image>): (r: seq<Painted>)
    ensures |r| == |texts| + |rectangles| + |circles| + |images|
  {
    Map(texts, (t: Text) => PaintedText(t))
      + Map(rectangles, (s: Shape) => PaintedRectangle(s))
      + Map(circles, (s: Shape) => PaintedCircle(s))
      + Map(images, (m: Image) => PaintedImage(m))
  }

  // --------------------------------------------------------------- lemmas

  /** Paint order: texts first, then rectangles, circles and images, each list in its own order. */
  lemma CanvasPaintOrder(texts: seq<Text>, rectangles: seq<Shape>, circles: seq<Shape>, images: seq<Image>)
    ensures var r := Canvas(texts, rectangles, circles, images);
      && (forall i :: 0 <= i < |texts| ==> r[i] == PaintedText(texts[i]))
      && (forall i :: 0 <= i < |rectangles| ==> r[|texts| + i] == PaintedRectangle(rectangles[i]))
      && (forall i :: 0 <= i < |circles| ==> r[|texts| + |rectangles| + i] == PaintedCircle(circles[i]))
      && (forall i :: 0 <= i < |images| ==> r[|texts| + |rectangles| + |circles| + i] == PaintedImage(images[i]))
  {
  }

  /** Removing an id right after adding it, when no earlier text had it, restores the list. */
  lemma RemoveUndoesAppendText(texts: seq<Text>, id: int)
    requires forall i :: 0 <= i < |texts| ==> texts[i].id != id
    ensures TextsWithout(AppendText(texts, id), Some(id)) == texts
  {
    WithoutAppend(texts, [Text(id, NewTextLabel, 0.0, 0.0)], TextId, Some(id));
    WithoutAbsent(texts, TextId, Some(id));
  }

  /** The same for rectangles and circles. */
  lemma RemoveUndoesAppendShape(shapes: seq<Shape>, id: int)
    requires forall i :: 0 <= i < |shapes| ==> shapes[i].id != id
    ensures ShapesWithout(AppendShape(shapes, id), Some(id)) == shapes
  {
    WithoutAppend(shapes, [Shape(id, 0.0, 0.0, 1.0)], ShapeId, Some(id));
    WithoutAbsent(shapes, ShapeId, Some(id));
  }

  /** Of two commits for the same shape, the later one is what stays. */
  lemma LaterShapeCommitWins(shapes: seq<Shape>, id: int, x1: real, y1: real, s1: real, x2: real, y2: real, s2: real)
    ensures SetShapeTransform(SetShapeTransform(shapes, id, x1, y1, s1), id, x2, y2, s2)
         == SetShapeTransform(shapes, id, x2, y2, s2)
  {
  }

  /** A commit from a gesture on a removed image leaves the list as the removal left it. */
  lemma StaleImageCommitIsNoOp(images: seq<Image>, id: int, x: real, y: real, scale: real)
    ensures SetImageTransform(ImagesWithout(images, Some(id)), id, x, y, scale) == ImagesWithout(images, Some(id))
  {
  }

  /** Removing the selection from each list, then painting, equals removing it from the painted canvas. */
  lemma CanvasWithout(texts: seq<Text>, rectangles: seq<Shape>, circles: seq<Shape>, images: seq<Image>, sel: Option<int>)
    ensures Canvas(TextsWithout(texts, sel), ShapesWithout(rectangles, sel), ShapesWithout(circles, sel), ImagesWithout(images, sel))
         == Without(Canvas(texts, rectangles, circles, images), PaintedId, sel)
  {
    var pt := (t: Text) => PaintedText(t);
    var pr := (s: Shape) => PaintedRectangle(s);
    var pc := (s: Shape) => PaintedCircle(s);
    var pi := (m: Image) => PaintedImage(m);
    var a, b, c, d := Map(texts, pt), Map(rectangles, pr), Map(circles, pc), Map(images, pi);
    WithoutAppend(a + b + c, d, PaintedId, sel);
    WithoutAppend(a + b, c, PaintedId, sel);
    WithoutAppend(a, b, PaintedId, sel);
    WithoutMap(texts, pt, TextId, PaintedId, sel);
    WithoutMap(rectangles, pr, ShapeId, PaintedId, sel);
    WithoutMap(circles, pc, ShapeId, PaintedId, sel);
    WithoutMap(images, pi, ImageId, PaintedId, sel);
  }
}
