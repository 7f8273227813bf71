/**
 Whole interactions of the editor screen, wiring the controllers' commits
 into the editor's update handlers as the screen does. A commit that changes
 the registry re-renders the element: its controller receives the stored
 values as its new props.
 */
module Scenarios {
  import opened Elements
  import opened Registry
  import opened EditorState
  import opened Controllers

  /**
   Add a rectangle, pan it by (50, -20) and pinch it by 1.5 at the same time,
   then let the two gestures end in either order (the first commit
   re-rendering the element): the registry holds the new position AND the new
   scale.
   */
  method PanAndPinchRectangle(id: int, pinchEndsFirst: bool) returns (rectangles: seq<Shape>)
    ensures rectangles == [Shape(id, 50.0, -20.0, 1.5)]
  {
    var editor := new Editor();
    editor.AddRectangle(id);
    var r := editor.rectangles[0];
    var controller := new TransformController(r.id, r.x, r.y, r.scale);
    controller.PanUpdate(50.0, -20.0);
    controller.PinchUpdate(1.5);
    var first;
    if pinchEndsFirst {
      first := controller.PinchEnd();
    } else {
      first := controller.PanEnd();
    }
    editor.UpdateRectangleTransform(first.id, first.x, first.y, first.scale);
    r := editor.rectangles[0];
    controller.Rerender(r.x, r.y, r.scale);
    var second;
    if pinchEndsFirst {
      second := controller.PanEnd();
    } else {
      second := controller.PinchEnd();
    }
    editor.UpdateRectangleTransform(second.id, second.x, second.y, second.scale);
    rectangles := editor.rectangles;
  }

  /**
   Drag a rectangle by (10, 0), let go, then drag it again by (5, 0): the
   second drag starts from where the first one left the element, through the
   re-render the first commit causes.
   */
  method TwoPansAccumulate(id: int) returns (rectangles: seq<Shape>)
    ensures rectangles == [Shape(id, 15.0, 0.0, 1.0)]
  {
    var editor := new Editor();
    editor.AddRectangle(id);
    var r := editor.rectangles[0];
    var controller := new TransformController(r.id, r.x, r.y, r.scale);
    controller.PanUpdate(10.0, 0.0);
    var c := controller.PanEnd();
    editor.UpdateRectangleTransform(c.id, c.x, c.y, c.scale);
    r := editor.rectangles[0];
    controller.Rerender(r.x, r.y, r.scale);
    controller.PanUpdate(5.0, 0.0);
    c := controller.PanEnd();
    editor.UpdateRectangleTransform(c.id, c.x, c.y, c.scale);
    rectangles := editor.rectangles;
  }

  /**
   Pan a rectangle by (50, -20) and pinch it by 1.5; the pinch ends first and
   its commit re-renders the element while the pan still runs; the pan then
   reports the same translation once more and ends. As the code is written,
   the registry ends with the rectangle at (100, -40), not (50, -20).
   */
  method PinchEndsMidPanCountsTwice(id: int) returns (rectangles: seq<Shape>)
    ensures rectangles == [Shape(id, 100.0, -40.0, 1.5)]
  {
    var editor := new Editor();
    editor.AddRectangle(id);
    var r := editor.rectangles[0];
    var controller := new TransformController(r.id, r.x, r.y, r.scale);
    controller.PanUpdate(50.0, -20.0);
    controller.PinchUpdate(1.5);
    var c := controller.PinchEnd();
    editor.UpdateRectangleTransform(c.id, c.x, c.y, c.scale);
    r := editor.rectangles[0];
    controller.Rerender(r.x, r.y, r.scale);
    controller.PanUpdate(50.0, -20.0);
    c := controller.PanEnd();
    editor.UpdateRectangleTransform(c.id, c.x, c.y, c.scale);
    rectangles := editor.rectangles;
  }

  /**
   Pinch a rectangle by 2 and pan it by (10, 0); the pan ends first and its
   commit re-renders the element while the pinch still runs; the pinch then
   reports the same factor once more and ends. As the code is written, the
   registry ends with scale 4, not 2.
   */
  method PanEndsMidPinchCompounds(id: int) returns (rectangles: seq<Shape>)
    ensures rectangles == [Shape(id, 10.0, 0.0, 4.0)]
  {
    var editor := new Editor();
    editor.AddRectangle(id);
    var r := editor.rectangles[0];
    var controller := new TransformController(r.id, r.x, r.y, r.scale);
    controller.PinchUpdate(2.0);
    controller.PanUpdate(10.0, 0.0);
    var c := controller.PanEnd();
    editor.UpdateRectangleTransform(c.id, c.x, c.y, c.scale);
    r := editor.rectangles[0];
    controller.Rerender(r.x, r.y, r.scale);
    controller.PinchUpdate(2.0);
    c := controller.PinchEnd();
    editor.UpdateRectangleTransform(c.id, c.x, c.y, c.scale);
    rectangles := editor.rectangles;
  }

  /** The interaction of `PinchEndsMidPanCountsTwice` under the anchored rule: (50, -20, 1.5). */
  method PinchEndsMidPanAnchored(id: int) returns (rectangles: seq<Shape>)
    ensures rectangles == [Shape(id, 50.0, -20.0, 1.5)]
  {
    var editor := new Editor();
    editor.AddRectangle(id);
    var r := editor.rectangles[0];
    var controller := new AnchoredController(r.id, r.x, r.y, r.scale);
    controller.PanUpdate(50.0, -20.0);
    controller.PinchUpdate(1.5);
    var c := controller.PinchEnd();
    assert c == TransformCommit(id, 50.0, -20.0, 1.5);
    editor.UpdateRectangleTransform(c.id, c.x, c.y, c.scale);
    r := editor.rectangles[0];
    controller.Rerender(r.x, r.y, r.scale);
    assert controller.panActive && controller.baseX == 0.0 && controller.baseY == 0.0;
    controller.PanUpdate(50.0, -20.0);
    c := controller.PanEnd();
    editor.UpdateRectangleTransform(c.id, c.x, c.y, c.scale);
    rectangles := editor.rectangles;
  }

  /** The interaction of `PanEndsMidPinchCompounds` under the anchored rule: scale 2. */
  method PanEndsMidPinchAnchored(id: int) returns (rectangles: seq<Shape>)
    ensures rectangles == [Shape(id, 10.0, 0.0, 2.0)]
  {
    var editor := new Editor();
    editor.AddRectangle(id);
    var r := editor.rectangles[0];
    var controller := new AnchoredController(r.id, r.x, r.y, r.scale);
    controller.PinchUpdate(2.0);
    controller.PanUpdate(10.0, 0.0);
    var c := controller.PanEnd();
    assert c == TransformCommit(id, 10.0, 0.0, 2.0);
    editor.UpdateRectangleTransform(c.id, c.x, c.y, c.scale);
    r := editor.rectangles[0];
    controller.Rerender(r.x, r.y, r.scale);
    assert controller.pinchActive && controller.baseScale == 1.0;
    controller.PinchUpdate(2.0);
    c := controller.PinchEnd();
    editor.UpdateRectangleTransform(c.id, c.x, c.y, c.scale);
    rectangles := editor.rectangles;
  }

  /** Two drags in a row under the anchored rule still accumulate: (15, 0). */
  method TwoPansAccumulateAnchored(id: int) returns (rectangles: seq<Shape>)
    ensures rectangles == [Shape(id, 15.0, 0.0, 1.0)]
  {
    var editor := new Editor();
    editor.AddRectangle(id);
    var r := editor.rectangles[0];
    var controller := new AnchoredController(r.id, r.x, r.y, r.scale);
    controller.PanUpdate(10.0, 0.0);
    var c := controller.PanEnd();
    assert c == TransformCommit(id, 10.0, 0.0, 1.0);
    editor.UpdateRectangleTransform(c.id, c.x, c.y, c.scale);
    r := editor.rectangles[0];
    controller.Rerender(r.x, r.y, r.scale);
    assert !controller.panActive && controller.initialX == 10.0 && controller.initialY == 0.0;
    controller.PanUpdate(5.0, 0.0);
    c := controller.PanEnd();
    editor.UpdateRectangleTransform(c.id, c.x, c.y, c.scale);
    rectangles := editor.rectangles;
  }

  /**
   Add a text, tap it, type "Hello", leave the input: the stored label is
   "Hello", the element is selected and back in display mode.
   */
  method EditTextLabel(id: int) returns (texts: seq<Text>, selected: Option<int>, editing: bool)
    ensures texts == [Text(id, "Hello", 0.0, 0.0)]
    ensures selected == Some(id) && !editing
  {
    var editor := new Editor();
    editor.AddText(id);
    var t := editor.texts[0];
    var controller := new TextController(t.id, t.caption, t.x, t.y);
    var tapped := controller.Press();
    editor.Select(tapped);
    controller.ChangeText("Hello");
    var c := controller.Blur();
    editor.UpdateText(c.id, c.text);
    texts, selected, editing := editor.texts, editor.selectedId, controller.isEditing;
  }

  /**
   Pick an image, tap it to select it, start dragging it and remove it; the drag then
   ends and commits: the commit finds nothing and the image stays removed.
   */
  method StaleImageCommit(id: int, uri: string, translationX: real, translationY: real)
    returns (images: seq<Image>, selected: Option<int>)
    ensures images == [] && selected == None
  {
    var editor := new Editor();
    editor.AddImage(id, true, PickerResult(false, Some([Asset(uri)])));
    var m := editor.images[0];
    var controller := new TransformController(m.id, m.x, m.y, m.scale);
    var tapped := controller.Press();
    editor.Select(tapped);
    controller.PanUpdate(translationX, translationY);
    editor.RemoveSelected();
    var c := controller.PanEnd();
    editor.UpdateImageTransform(c.id, c.x, c.y, c.scale);
    images, selected := editor.images, editor.selectedId;
  }
}
