/**
 The per-element gesture controllers. Each holds the live values the element
 is drawn with, written by its gesture callbacks; an end callback hands the
 current values to the registry callback, modelled as the commit record the
 method returns. The initial values are the element's props: the committed
 registry values of the latest render. A re-render replaces them and keeps the
 live values, and every later update reads the replaced ones. A ghost history
 of the callbacks and re-renders received ties the controller's state to the
 replay functions of `Gestures`.
 */
module Controllers {
  import opened Elements
  import opened Gestures

  /** What `onUpdatePosition(id, x, y)` receives. */
  datatype PositionCommit = PositionCommit(id: int, x: real, y: real)

  /** What `onUpdateTransform(id, x, y, scale)` receives. */
  datatype TransformCommit = TransformCommit(id: int, x: real, y: real, scale: real)

  /** What `onChangeText(id, text)` receives. */
  datatype LabelCommit = LabelCommit(id: int, text: string)

  /** The draggable, editable text element: a pan gesture and a display/edit toggle. */
  class TextController {
    const id: int
    ghost const startX: real
    ghost const startY: real
    var initialX: real
    var initialY: real
    var offsetX: real
    var offsetY: real
    var isEditing: bool
    var text: string
    ghost var events: seq<GestureEvent>

    ghost predicate Valid()
      reads this
    {
      PanReplay(startX, startY, events) == PanState(initialX, initialY, Offset(offsetX, offsetY))
    }

    constructor (id: int, caption: string, initialX: real, initialY: real)
      ensures Valid() && events == []
      ensures this.id == id && this.initialX == initialX && this.initialY == initialY
      ensures startX == initialX && startY == initialY
      ensures offsetX == initialX && offsetY == initialY
      ensures !isEditing && text == caption
    {
      this.id := id;
      startX, startY := initialX, initialY;
      this.initialX, this.initialY := initialX, initialY;
      offsetX, offsetY := initialX, initialY;
      isEditing, text := false, caption;
      events := [];
    }

    /** Pan `onUpdate`: the offset becomes the current position props plus the translation. */
    method PanUpdate(translationX: real, translationY: real)
      requires Valid()
      modifies this`offsetX, this`offsetY, this`events
      ensures Valid() && events == old(events) + [PanMove(translationX, translationY)]
      ensures offsetX == translationX + initialX && offsetY == translationY + initialY
    {
      offsetX := translationX + initialX;
      offsetY := translationY + initialY;
      events := events + [PanMove(translationX, translationY)];
      assert events[..|events| - 1] == old(events);
    }

    /** Pan `onEnd`: commits the current offset. */
    method PanEnd() returns (c: PositionCommit)
      requires Valid()
      modifies this`events
      ensures Valid() && events == old(events) + [PanStop]
      ensures c == PositionCommit(id, offsetX, offsetY)
      ensures Offset(c.x, c.y) == PanReplay(startX, startY, old(events)).offset
    {
      c := PositionCommit(id, offsetX, offsetY);
      events := events + [PanStop];
      assert events[..|events| - 1] == old(events);
    }

    /**
     The screen re-renders the element with new position props: later updates
     add their translation to (x, y); the live offset and the draft text stay.
     */
    method Rerender(x: real, y: real)
      requires Valid()
      modifies this`initialX, this`initialY, this`events
      ensures Valid() && events == old(events) + [PositionProps(x, y)]
      ensures initialX == x && initialY == y
    {
      initialX, initialY := x, y;
      events := events + [PositionProps(x, y)];
      assert events[..|events| - 1] == old(events);
    }

    /** A tap on the displayed text: enters edit mode and selects the element. */
    method Press() returns (selected: int)
      requires !isEditing
      modifies this`isEditing
      ensures isEditing && selected == id
    {
      isEditing := true;
      selected := id;
    }

    /** Typing in the input: the draft text is replaced. */
    method ChangeText(newText: string)
      requires isEditing
      modifies this`text
      ensures text == newText
    {
      text := newText;
    }

    /** The input loses focus: leaves edit mode and commits the draft as the label. */
    method Blur() returns (c: LabelCommit)
      requires isEditing
      modifies this`isEditing
      ensures !isEditing && c == LabelCommit(id, text)
    {
      isEditing := false;
      c := LabelCommit(id, text);
    }
  }

  /**
   The draggable, pinchable element: a shape (rectangle or circle) or an
   image. Both kinds run the same pan and pinch callbacks.
   */
  class TransformController {
    const id: int
    ghost const start: Transform
    var initialX: real
    var initialY: real
    var initialScale: real
    var offsetX: real
    var offsetY: real
    var scale: real
    ghost var events: seq<GestureEvent>

    /** The props of the latest render. */
    function Initial(): (r: Transform)
      reads this
    {
      Transform(initialX, initialY, initialScale)
    }

    /** The values the element is drawn with. */
    function Live(): (r: Transform)
      reads this
    {
      Transform(offsetX, offsetY, scale)
    }

    ghost predicate Valid()
      reads this
    {
      && PanReplay(start.x, start.y, events) == PanState(initialX, initialY, Offset(offsetX, offsetY))
      && PinchReplay(start.scale, events) == PinchState(initialScale, scale)
    }

    constructor (id: int, initialX: real, initialY: real, initialScale: real)
      ensures Valid() && events == []
      ensures this.id == id && Initial() == Transform(initialX, initialY, initialScale)
      ensures start == Initial() && Live() == Initial()
    {
      this.id := id;
      start := Transform(initialX, initialY, initialScale);
      this.initialX, this.initialY, this.initialScale := initialX, initialY, initialScale;
      offsetX, offsetY, scale := initialX, initialY, initialScale;
      events := [];
    }

    /** Pan `onUpdate`: the offset becomes the current position props plus the translation; scale is kept. */
    method PanUpdate(translationX: real, translationY: real)
      requires Valid()
      modifies this`offsetX, this`offsetY, this`events
      ensures Valid() && events == old(events) + [PanMove(translationX, translationY)]
      ensures Live() == Transform(translationX + initialX, translationY + initialY, old(scale))
    {
      offsetX := translationX + initialX;
      offsetY := translationY + initialY;
      events := events + [PanMove(translationX, translationY)];
      assert events[..|events| - 1] == old(events);
    }

    /** Pinch `onUpdate`: the scale becomes the factor times the current scale prop; the offset is kept. */
    method PinchUpdate(factor: real)
      requires Valid()
      modifies this`scale, this`events
      ensures Valid() && events == old(events) + [PinchMove(factor)]
      ensures Live() == Transform(old(offsetX), old(offsetY), factor * initialScale)
    {
      scale := factor * initialScale;
      events := events + [PinchMove(factor)];
      assert events[..|events| - 1] == old(events);
    }

    /** Pan `onEnd`: commits the full current triple. */
    method PanEnd() returns (c: TransformCommit)
      requires Valid()
      modifies this`events
      ensures Valid() && events == old(events) + [PanStop]
      ensures c == TransformCommit(id, offsetX, offsetY, scale)
      ensures Commits(start, events) == Commits(start, old(events)) + [Transform(c.x, c.y, c.scale)]
    {
      c := TransformCommit(id, offsetX, offsetY, scale);
      EndCommitsLive(start, events, PanStop);
      events := events + [PanStop];
      assert events[..|events| - 1] == old(events);
    }

    /** Pinch `onEnd`: commits the full current triple, exactly as pan `onEnd` does. */
    method PinchEnd() returns (c: TransformCommit)
      requires Valid()
      modifies this`events
      ensures Valid() && events == old(events) + [PinchStop]
      ensures c == TransformCommit(id, offsetX, offsetY, scale)
      ensures Commits(start, events) == Commits(start, old(events)) + [Transform(c.x, c.y, c.scale)]
    {
      c := TransformCommit(id, offsetX, offsetY, scale);
      EndCommitsLive(start, events, PinchStop);
      events := events + [PinchStop];
      assert events[..|events| - 1] == old(events);
    }

    /**
     The screen re-renders the element with new props (x, y, scale): later
     updates read them; the live triple stays where it is.
     */
    method Rerender(x: real, y: real, scale: real)
      requires Valid()
      modifies this`initialX, this`initialY, this`initialScale, this`events
      ensures Valid() && events == old(events) + [PositionProps(x, y), ScaleProps(scale)]
      ensures Initial() == Transform(x, y, scale)
    {
      ghost var moved := events + [PositionProps(x, y)];
      assert PanReplay(start.x, start.y, moved) == PanState(x, y, Offset(offsetX, offsetY))
          && PinchReplay(start.scale, moved) == PinchState(initialScale, this.scale) by {
        ReplayAppend(start, events, PositionProps(x, y));
      }
      ghost var done := moved + [ScaleProps(scale)];
      assert PanReplay(start.x, start.y, done) == PanState(x, y, Offset(offsetX, offsetY))
          && PinchReplay(start.scale, done) == PinchState(scale, this.scale) by {
        ReplayAppend(start, moved, ScaleProps(scale));
      }
      initialX, initialY, initialScale := x, y, scale;
      events := done;
    }

    /** A tap on the element: selects it; the gestures are untouched. */
    method Press() returns (selected: int)
      ensures selected == id
    {
      selected := id;
    }
  }

  /**
   The transform controller under the anchored rule that the code evidently
   intends: each gesture takes its base from the props in force at its first
   update and keeps that base until it ends, so a re-render while it runs
   does not move it. `panActive`/`pinchActive` tell whether a gesture of that
   kind is running.
   */
  class AnchoredController {
    const id: int
    ghost const start: Transform
    var initialX: real
    var initialY: real
    var initialScale: real
    var panActive: bool
    var baseX: real
    var baseY: real
    var pinchActive: bool
    var baseScale: real
    var offsetX: real
    var offsetY: real
    var scale: real
    ghost var events: seq<GestureEvent>

    /** The props of the latest render. */
    function Initial(): (r: Transform)
      reads this
    {
      Transform(initialX, initialY, initialScale)
    }

    /** The values the element is drawn with. */
    function Live(): (r: Transform)
      reads this
    {
      Transform(offsetX, offsetY, scale)
    }

    /** The base of the running pan, if one runs. */
    function PanBase(): (r: Option<Offset>)
      reads this
      ensures r.Some? <==> panActive
    {
      if panActive then Some(Offset(baseX, baseY)) else None
    }

    /** The base of the running pinch, if one runs. */
    function PinchBase(): (r: Option<real>)
      reads this
      ensures r.Some? <==> pinchActive
    {
      if pinchActive then Some(baseScale) else None
    }

    ghost predicate Valid()
      reads this
    {
      AnchoredRun(AnchoredStart(start), events) == AnchoredState(Initial(), PanBase(), PinchBase(), Live())
    }

    constructor (id: int, initialX: real, initialY: real, initialScale: real)
      ensures Valid() && events == []
      ensures this.id == id && Initial() == Transform(initialX, initialY, initialScale)
      ensures start == Initial() && Live() == Initial() && !panActive && !pinchActive
    {
      this.id := id;
      start := Transform(initialX, initialY, initialScale);
      this.initialX, this.initialY, this.initialScale := initialX, initialY, initialScale;
      panActive, baseX, baseY := false, initialX, initialY;
      pinchActive, baseScale := false, initialScale;
      offsetX, offsetY, scale := initialX, initialY, initialScale;
      events := [];
    }

    /**
     Pan update: the first update of a pan fixes its base at the current
     position props; every update sets the offset to base plus translation.
     */
    method PanUpdate(translationX: real, translationY: real)
      requires Valid()
      modifies this`panActive, this`baseX, this`baseY, this`offsetX, this`offsetY, this`events
      ensures Valid() && events == old(events) + [PanMove(translationX, translationY)]
      ensures panActive
      ensures old(panActive) ==> baseX == old(baseX) && baseY == old(baseY)
      ensures !old(panActive) ==> baseX == initialX && baseY == initialY
      ensures Live() == Transform(translationX + baseX, translationY + baseY, old(scale))
    {
      ghost var b := if panActive then Offset(baseX, baseY) else Offset(initialX, initialY);
      ghost var moved := events + [PanMove(translationX, translationY)];
      assert AnchoredRun(AnchoredStart(start), moved)
          == AnchoredState(Initial(), Some(b), PinchBase(), Transform(translationX + b.x, translationY + b.y, scale)) by {
        AnchoredRunAppend(AnchoredStart(start), events, PanMove(translationX, translationY));
      }
      if !panActive {
        baseX, baseY := initialX, initialY;
        panActive := true;
      }
      offsetX := translationX + baseX;
      offsetY := translationY + baseY;
      events := moved;
    }

    /** Pinch update: the first update of a pinch fixes its base at the current scale prop. */
    method PinchUpdate(factor: real)
      requires Valid()
      modifies this`pinchActive, this`baseScale, this`scale, this`events
      ensures Valid() && events == old(events) + [PinchMove(factor)]
      ensures pinchActive
      ensures old(pinchActive) ==> baseScale == old(baseScale)
      ensures !old(pinchActive) ==> baseScale == initialScale
      ensures Live() == Transform(old(offsetX), old(offsetY), factor * baseScale)
    {
      ghost var b := if pinchActive then baseScale else initialScale;
      ghost var moved := events + [PinchMove(factor)];
      assert AnchoredRun(AnchoredStart(start), moved)
          == AnchoredState(Initial(), PanBase(), Some(b), Transform(offsetX, offsetY, factor * b)) by {
        AnchoredRunAppend(AnchoredStart(start), events, PinchMove(factor));
      }
      if !pinchActive {
        baseScale := initialScale;
        pinchActive := true;
      }
      scale := factor * baseScale;
      events := moved;
    }

    /** Pan end: commits the full current triple and ends the pan. */
    method PanEnd() returns (c: TransformCommit)
      requires Valid()
      modifies this`panActive, this`events
      ensures Valid() && events == old(events) + [PanStop] && !panActive
      ensures c == TransformCommit(id, offsetX, offsetY, scale)
    {
      AnchoredRunAppend(AnchoredStart(start), events, PanStop);
      c := TransformCommit(id, offsetX, offsetY, scale);
      panActive := false;
      events := events + [PanStop];
    }

    /** Pinch end: commits the full current triple and ends the pinch. */
    method PinchEnd() returns (c: TransformCommit)
      requires Valid()
      modifies this`pinchActive, this`events
      ensures Valid() && events == old(events) + [PinchStop] && !pinchActive
      ensures c == TransformCommit(id, offsetX, offsetY, scale)
    {
      AnchoredRunAppend(AnchoredStart(start), events, PinchStop);
      c := TransformCommit(id, offsetX, offsetY, scale);
      pinchActive := false;
      events := events + [PinchStop];
    }

    /** A re-render sets the props the NEXT gesture starts from; running gestures keep their base. */
    method Rerender(x: real, y: real, scale: real)
      requires Valid()
      modifies this`initialX, this`initialY, this`initialScale, this`events
      ensures Valid() && events == old(events) + [PositionProps(x, y), ScaleProps(scale)]
      ensures Initial() == Transform(x, y, scale)
    {
      ghost var moved := events + [PositionProps(x, y)];
      assert AnchoredRun(AnchoredStart(start), moved)
          == AnchoredState(Transform(x, y, initialScale), PanBase(), PinchBase(), Live()) by {
        AnchoredRunAppend(AnchoredStart(start), events, PositionProps(x, y));
      }
      AnchoredRunAppend(AnchoredStart(start), moved, ScaleProps(scale));
      initialX, initialY, initialScale := x, y, scale;
      events := moved + [ScaleProps(scale)];
    }

    /** A tap on the element: selects it; the gestures are untouched. */
    method Press() returns (selected: int)
      ensures selected == id
    {
      selected := id;
    }
  }
}
