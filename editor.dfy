/**
 The state of the editor screen: the four element lists and the selected id,
 each a state container that the handlers replace with a transform of its
 previous value. Every handler touches only the containers it sets.
 */
module EditorState {
  import opened Elements
  import opened Lists
  import opened Registry

  class Editor {
    var texts: seq<Text>
    var rectangles: seq<Shape>
    var circles: seq<Shape>
    var images: seq<Image>
    var selectedId: Option<int>

    /** Some element of some list carries `id`. */
    ghost predicate IsPresent(id: int)
      reads this
    {
      || HasId(texts, TextId, id)
      || HasId(rectangles, ShapeId, id)
      || HasId(circles, ShapeId, id)
      || HasId(images, ImageId, id)
    }

    /** The selection, when there is one, names an element that is on the canvas. */
    ghost predicate SelectionPresent()
      reads this
    {
      selectedId.Some? ==> IsPresent(selectedId.value)
    }

    /** The canvas as it is painted now. */
    function Scene(): (r: seq<Painted>)
      reads this
      ensures |r| == |texts| + |rectangles| + |circles| + |images|
    {
      Canvas(texts, rectangles, circles, images)
    }

    constructor ()
      ensures texts == [] && rectangles == [] && circles == [] && images == []
      ensures selectedId == None
      ensures SelectionPresent()
    {
      texts, rectangles, circles, images := [], [], [], [];
      selectedId := None;
    }

    method AddText(id: int)
      modifies this`texts
      ensures texts == AppendText(old(texts), id)
      ensures old(SelectionPresent()) ==> SelectionPresent()
    {
      texts := AppendText(texts, id);
      if old(selectedId).Some? {
        HasIdKept(old(texts), texts, TextId, selectedId.value);
      }
    }

    method AddRectangle(id: int)
      modifies this`rectangles
      ensures rectangles == AppendShape(old(rectangles), id)
      ensures old(SelectionPresent()) ==> SelectionPresent()
    {
      rectangles := AppendShape(rectangles, id);
      if old(selectedId).Some? {
        HasIdKept(old(rectangles), rectangles, ShapeId, selectedId.value);
      }
    }

    method AddCircle(id: int)
      modifies this`circles
      ensures circles == AppendShape(old(circles), id)
      ensures old(SelectionPresent()) ==> SelectionPresent()
    {
      circles := AppendShape(circles, id);
      if old(selectedId).Some? {
        HasIdKept(old(circles), circles, ShapeId, selectedId.value);
      }
    }

    /**
     `addImage` after its awaits: `granted` is the permission answer and
     `result` what the picker returned (ignored when permission was refused).
     */
    method AddImage(id: int, granted: bool, result: PickerResult)
      modifies this`images
      ensures images == if granted then AppendPicked(old(images), id, result) else old(images)
      ensures old(SelectionPresent()) ==> SelectionPresent()
    {
      if !granted {
        return;
      }
      images := AppendPicked(images, id, result);
      if old(selectedId).Some? {
        HasIdKept(old(images), images, ImageId, selectedId.value);
      }
    }

    method UpdateText(id: int, newText: string)
      modifies this`texts
      ensures texts == SetLabel(old(texts), id, newText)
      ensures old(SelectionPresent()) ==> SelectionPresent()
    {
      texts := SetLabel(texts, id, newText);
      if old(selectedId).Some? {
        HasIdKept(old(texts), texts, TextId, selectedId.value);
      }
    }

    method UpdateTextPosition(id: int, x: real, y: real)
      modifies this`texts
      ensures texts == SetTextPosition(old(texts), id, x, y)
      ensures old(SelectionPresent()) ==> SelectionPresent()
    {
      texts := SetTextPosition(texts, id, x, y);
      if old(selectedId).Some? {
        HasIdKept(old(texts), texts, TextId, selectedId.value);
      }
    }

    method UpdateRectangleTransform(id: int, x: real, y: real, scale: real)
      modifies this`rectangles
      ensures rectangles == SetShapeTransform(old(rectangles), id, x, y, scale)
      ensures old(SelectionPresent()) ==> SelectionPresent()
    {
      rectangles := SetShapeTransform(rectangles, id, x, y, scale);
      if old(selectedId).Some? {
        HasIdKept(old(rectangles), rectangles, ShapeId, selectedId.value);
      }
    }

    method UpdateCircleTransform(id: int, x: real, y: real, scale: real)
      modifies this`circles
      ensures circles == SetShapeTransform(old(circles), id, x, y, scale)
      ensures old(SelectionPresent()) ==> SelectionPresent()
    {
      circles := SetShapeTransform(circles, id, x, y, scale);
      if old(selectedId).Some? {
        HasIdKept(old(circles), circles, ShapeId, selectedId.value);
      }
    }

    method UpdateImageTransform(id: int, x: real, y: real, scale: real)
      modifies this`images
      ensures images == SetImageTransform(old(images), id, x, y, scale)
      ensures old(SelectionPresent()) ==> SelectionPresent()
    {
      images := SetImageTransform(images, id, x, y, scale);
      if old(selectedId).Some? {
        HasIdKept(old(images), images, ImageId, selectedId.value);
      }
    }

    /** `setSelectedId`, called when an element is tapped. */
    method Select(id: int)
      modifies this`selectedId
      ensures selectedId == Some(id)
      ensures IsPresent(id) ==> SelectionPresent()
    {
      selectedId := Some(id);
    }

    /** Filters the selected id out of all four lists, then clears the selection. */
    method RemoveSelected()
      modifies this
      ensures texts == TextsWithout(old(texts), old(selectedId))
      ensures rectangles == ShapesWithout(old(rectangles), old(selectedId))
      ensures circles == ShapesWithout(old(circles), old(selectedId))
      ensures images == ImagesWithout(old(images), old(selectedId))
      ensures selectedId == None && SelectionPresent()
      ensures old(selectedId).Some? ==> !IsPresent(old(selectedId).value)
      ensures Scene() == Without(old(Scene()), PaintedId, old(selectedId))
    {
      var sel := selectedId;
      CanvasWithout(texts, rectangles, circles, images, sel);
      texts := TextsWithout(texts, sel);
      rectangles := ShapesWithout(rectangles, sel);
      circles := ShapesWithout(circles, sel);
      images := ImagesWithout(images, sel);
      selectedId := None;
      if sel.Some? {
        NoneCarries(sel.value);
      }
    }

    /** After the filters, no list carries the id they filtered by. */
    lemma NoneCarries(id: int)
      requires forall i :: 0 <= i < |texts| ==> texts[i].id != id
      requires forall i :: 0 <= i < |rectangles| ==> rectangles[i].id != id
      requires forall i :: 0 <= i < |circles| ==> circles[i].id != id
      requires forall i :: 0 <= i < |images| ==> images[i].id != id
      ensures !IsPresent(id)
    {
    }
  }
}
