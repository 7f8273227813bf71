/**
 The entities of the design editor. Each kind of canvas element is a plain
 record: the editor replaces whole records in its lists and never updates one
 in place. Ids are the numbers the editor takes from the clock when it creates
 an element; nothing here assumes they are unique.
 */
module Elements {

  datatype Option<T> = None | Some(value: T)

  /** A text element: `{id, label, x, y}` (`label` is a Dafny keyword, so the field is `caption`). */
  datatype Text = Text(id: int, caption: string, x: real, y: real)

  /** A rectangle or a circle: `{id, x, y, scale}`. The list holding it decides its style. */
  datatype Shape = Shape(id: int, x: real, y: real, scale: real)

  /** An image element: `{id, uri, x, y, scale}`. */
  datatype Image = Image(id: int, uri: string, x: real, y: real, scale: real)

  /** One asset returned by the image picker. */
  datatype Asset = Asset(uri: string)

  /** What the image picker hands back; `assets` may be missing altogether. */
  datatype PickerResult = PickerResult(canceled: bool, assets: Option<seq<Asset>>)

  /** One element of the painted canvas, tagged with the list it came from. */
  datatype Painted =
    | PaintedText(text: Text)
    | PaintedRectangle(rectangle: Shape)
    | PaintedCircle(circle: Shape)
    | PaintedImage(image: Image)

  function TextId(t: Text): (r: int) { t.id }

  function ShapeId(s: Shape): (r: int) { s.id }

  function ImageId(i: Image): (r: int) { i.id }

  function PaintedId(p: Painted): (r: int) {
    match p
    case PaintedText(t) => t.id
    case PaintedRectangle(r) => r.id
    case PaintedCircle(c) => c.id
    case PaintedImage(i) => i.id
  }
}
