# Mini design editor: element registry and gesture transforms

A model of the editing core of a small React Native canvas editor
(`app/index.tsx`). The editor screen keeps four ordered lists of canvas
elements: texts, rectangles, circles and images. It also keeps one optional
selected id. Every element on the canvas is driven by a gesture controller.
The controller holds live offset and scale values while the user pans or
pinches, and commits them to the lists when a gesture ends.

Modules, leaf first:

- `Elements` (`elements.dfy`): the element records `Text`, `Shape` (rectangles
  and circles) and `Image`, the image-picker result, and the tagged `Painted`
  element of the canvas. The text field `label` is called `caption`, because
  `label` is a Dafny keyword.
- `Lists` (`lists.dfy`): the three list transforms the handlers use.
  `MapWhere` is `prev.map(e => e.id === id ? {...e, ...} : e)`. `Without` is
  `prev.filter(e => e.id !== selectedId)`. `Map` is the plain map used to
  paint. The file also holds the generic lemmas about them: order, element
  counts, idempotence, commuting with maps.
- `Registry` (`registry.dfy`): what each `Index` handler computes from the
  previous list, and the canvas paint order, with lemmas tying them together.
- `EditorState` (`editor.dfy`): class `Editor`, the state containers of
  `Index`. Each handler is a method whose frame names only the containers it
  sets. Its `ensures` give the new list as a `Registry` function of the old
  one.
- `Gestures` (`gestures.dfy`): one element's pan and pinch callbacks, and the
  re-renders that hand it new props, as an arbitrary interleaved sequence of
  events. The live values, the props in force and the committed triples are
  replay functions over that sequence. The lemmas state that only the latest
  update of each stream counts, measured from the props in force when it ran,
  and that either end commits both streams. The same module holds the
  anchored replay, which keeps each gesture's base fixed from its start (see
  Findings).
- `Controllers` (`controllers.dfy`): class `TextController` (`DraggableText`)
  and class `TransformController` (`DraggableShape` and `DraggableImage`, which
  run identical gesture code). Their prop and live fields are kept equal to
  the replay of a ghost event history, and `Rerender` hands them new props.
  Class `AnchoredController` is the corrected transform controller of the
  Findings, kept equal to the anchored replay.
- `Scenarios` (`scenarios.dfy`): whole interactions that wire the controllers'
  commits into the editor's handlers, the way the screen's props do.

Parameters stand in for everything the code reads from outside:

- ids, which the code takes from `Date.now()`;
- the media-library permission answer and the picker result;
- the gesture translations and pinch factors.

Each registry callback is modelled as a value returned by the controller
method: an end callback (`runOnJS(onUpdate...)`) or `onBlur` returns a commit
record, and a tap (`onSelect`, on texts, shapes and images alike) returns the
tapped id from the controller's `Press`. The caller passes that value to the
corresponding `Editor` method.

On these points the model follows the code as written:

- Ids are not guaranteed unique, and nothing here assumes they are. Removal
  filters every list by the id, so it drops ANY element carrying it.
- Scale has no floor or clamp. A pinch update stores `factor * initialScale`
  as it is.
- Texts carry no scale at all.
- Removal with no selection filters by `null`. That keeps every element and
  only clears the selection.
- Pan updates read the `initialX`/`initialY` props of the latest render, and
  pinch updates read `initialScale`. A commit changes the registry, the
  element re-renders with the committed values as its props, and the live
  shared values are kept. No update reads the live value, and no gesture
  fixes its base when it starts.

## Model

| member | source | states |
|---|---|---|
| Registry.AppendText | app/index.tsx:143-144 | the list grows by exactly one element at the end, `Text(id, "New Text", 0, 0)`; all earlier elements are kept in place |
| Registry.AppendShape | app/index.tsx:146-150 | the list grows by exactly one element at the end, `Shape(id, 0, 0, 1)`; all earlier elements are kept in place |
| Registry.AppendPicked | app/index.tsx:164-169 | when the picker was not canceled and returned at least one asset, the first asset's uri is appended at (0, 0) with scale 1; otherwise (canceled, no assets, missing assets) the list is unchanged |
| Registry.SetLabel | app/index.tsx:173-174 | length kept; each element with the id gets the new label and keeps id, x and y; every other element is unchanged; an absent id leaves the list equal to the old one |
| Registry.SetTextPosition | app/index.tsx:176-177 | length kept; each element with the id gets the new x, y and keeps id and label; every other element is unchanged; an absent id is a no-op |
| Registry.SetShapeTransform | app/index.tsx:179-183 | length kept; each element with the id becomes `Shape(id, x, y, scale)`; every other element is unchanged; an absent id is a no-op |
| Registry.SetImageTransform | app/index.tsx:185-186 | length kept; each element with the id takes x, y, scale and keeps its uri; every other element is unchanged; an absent id is a no-op |
| Registry.TextsWithout | app/index.tsx:189 | every survivor comes from the old list and does not carry the selected id; every old element not carrying it survives; with no element carrying it the list is unchanged |
| Registry.ShapesWithout | app/index.tsx:190-191 | the same filter for rectangles and circles |
| Registry.ImagesWithout | app/index.tsx:192 | the same filter for images |
| Registry.Canvas | app/index.tsx:222-238 | the painted canvas has one entry per element of the four lists |
| Registry.CanvasPaintOrder | app/index.tsx:222-238 | the canvas paints all texts in list order, then the rectangles, then the circles, then the images |
| Registry.CanvasWithout | app/index.tsx:188-194 | filtering the selected id out of each list and then painting gives the painted canvas with that id filtered out |
| Registry.RemoveUndoesAppendText | app/index.tsx:143-194 | removing the id of a text just added, when no earlier text had that id, gives back the old list |
| Registry.RemoveUndoesAppendShape | app/index.tsx:146-194 | the same for a rectangle or circle just added |
| Registry.LaterShapeCommitWins | app/index.tsx:179-183 | of two transform commits for one id, only the later one is visible |
| Registry.StaleImageCommitIsNoOp | app/index.tsx:185-194 | a transform commit for an image id that was just removed leaves the list as the removal left it |
| Lists.MapWhere | app/index.tsx:173-186 | length kept; each element with the id is replaced by `f` of it; every other element is unchanged |
| Lists.WithoutAppend | app/index.tsx:188-194 | removal distributes over concatenation, so survivors keep their relative order |
| Lists.WithoutAbsent | app/index.tsx:188-194 | filtering by an id no element carries returns the list unchanged |
| Lists.Without | app/index.tsx:188-192 | survivors come from the list and do not carry the id; every element not carrying it survives; never longer than the list |
| Lists.WithoutCounts | app/index.tsx:188-192 | each element not carrying the id survives exactly as many times as it occurs; an element carrying it survives zero times |
| Lists.Map | app/index.tsx:223-237 | length kept; entry i is `f` of element i |
| Lists.WithoutIdempotent | app/index.tsx:188-194 | removing the same id a second time changes nothing |
| Lists.WithoutMap | app/index.tsx:188-237 | filtering by id commutes with any map that keeps ids, such as the canvas tagging |
| Lists.MapWhereAfterWithout | app/index.tsx:176-194 | an update by id after that id was filtered out changes nothing |
| EditorState.Editor.constructor | app/index.tsx:135-139 | the editor starts with four empty lists and no selection |
| EditorState.Editor.AddText | app/index.tsx:143-144 | only `texts` changes, to `AppendText` of the old list; a selection that was on the canvas stays on it |
| EditorState.Editor.AddRectangle | app/index.tsx:146-147 | only `rectangles` changes, to `AppendShape` of the old list; a present selection stays present |
| EditorState.Editor.AddCircle | app/index.tsx:149-150 | only `circles` changes, to `AppendShape` of the old list; a present selection stays present |
| EditorState.Editor.AddImage | app/index.tsx:152-171 | without permission nothing changes; with permission only `images` changes, to `AppendPicked` of the old list and the picker result |
| EditorState.Editor.UpdateText | app/index.tsx:173-174 | only `texts` changes, to `SetLabel`; a present selection stays present |
| EditorState.Editor.UpdateTextPosition | app/index.tsx:176-177 | only `texts` changes, to `SetTextPosition`; a present selection stays present |
| EditorState.Editor.UpdateRectangleTransform | app/index.tsx:179-180 | only `rectangles` changes, to `SetShapeTransform`; a present selection stays present |
| EditorState.Editor.UpdateCircleTransform | app/index.tsx:182-183 | only `circles` changes, to `SetShapeTransform`; a present selection stays present |
| EditorState.Editor.UpdateImageTransform | app/index.tsx:185-186 | only `images` changes, to `SetImageTransform`; a present selection stays present |
| EditorState.Editor.Select | app/index.tsx:224-236 | only the selection changes, to the tapped id; tapping an element on the canvas leaves a present selection |
| EditorState.Editor.RemoveSelected | app/index.tsx:188-194 | all four lists are filtered by the old selection and the selection is cleared; no list still carries the removed id; the new canvas is the old canvas without it |
| EditorState.Editor.Scene | app/index.tsx:222-238 | the canvas of the current state has one entry per element |
| Gestures.PanStep | app/index.tsx:18-21 | one pan-side callback as written: an update sets the offset to the translation plus the CURRENT position props; a re-render replaces those props (no contract; its behaviour is stated by the lemmas below) |
| Gestures.PinchStep | app/index.tsx:63-64 | one pinch-side callback as written: an update sets the scale to the factor times the CURRENT scale prop; a re-render replaces that prop (no contract) |
| Gestures.LiveAfter | app/index.tsx:52-64 | the live triple the element is drawn with after a history: the replayed offset and the replayed scale (no contract) |
| Gestures.PanReplayUntouched | app/index.tsx:15-21 | about `PanReplay`: with no re-render in the history, the position props are still the start position; with no pan update, the live offset is still the start position |
| Gestures.PinchReplayUntouched | app/index.tsx:54-64 | about `PinchReplay`: with no re-render, the scale prop is still the start scale; with no pinch update, the live scale is still the start scale |
| Gestures.CommitsOnePerEnd | app/index.tsx:59-67 | about `Commits`: the registry receives exactly one commit per pan end or pinch end |
| Gestures.PanUsesLatestUpdate | app/index.tsx:18-21 | after any interleaving, the live offset is the translation of the LAST pan update plus the position props in force when it ran; earlier updates, pinch callbacks and later re-renders leave no trace |
| Gestures.PinchUsesLatestUpdate | app/index.tsx:63-64 | after any interleaving, the live scale is the LAST pinch factor times the scale prop in force when it ran |
| Gestures.PanWithinOneRender | app/index.tsx:15-21 | with no re-render, the live offset is the start position plus the latest translation |
| Gestures.PinchWithinOneRender | app/index.tsx:54-64 | with no re-render, the live scale is the latest factor times the start scale |
| Gestures.LiveIsLatestOfBoth | app/index.tsx:56-64 | once both streams have updated, the live triple combines the latest translation and the latest factor, each applied to the props in force when it ran |
| Gestures.EndCommitsLive | app/index.tsx:59-66 | a pan end or a pinch end appends exactly one commit, the live triple as it stands |
| Gestures.EndCommitsBothStreams | app/index.tsx:56-67 | within one render, whichever gesture ends, its commit carries the newest position AND the newest scale |
| Gestures.OnlyEndsCommit | app/index.tsx:56-67 | update callbacks and re-renders commit nothing to the registry |
| Gestures.RerenderKeepsLive | app/index.tsx:52-54 | a re-render with new props leaves the live triple where it was, since the shared values keep their state |
| Gestures.AnchoredStart | app/index.tsx:52-54 | corrected: the anchored state of a new element, live triple at its props and no gesture running (no contract) |
| Gestures.AnchoredStep | app/index.tsx:56-67 | corrected: one callback under the anchored rule; the first update of a gesture fixes its base at the props in force, later updates reuse it, an end clears it (no contract; its behaviour is stated by the lemmas below) |
| Gestures.AnchoredRun | app/index.tsx:56-67 | corrected: the anchored state after a history of callbacks (no contract) |
| Gestures.AnchoredPanKeepsBase | app/index.tsx:56-58 | corrected: while a pan runs, its offset is the base taken when it began plus the latest translation, whatever re-renders and pinch callbacks came in between |
| Gestures.AnchoredPinchKeepsBase | app/index.tsx:63-64 | corrected: while a pinch runs, its scale is the base taken when it began times the latest factor |
| Gestures.AnchoredAgreesWithinOneRender | app/index.tsx:56-67 | corrected: with no re-render, the anchored rule computes exactly the live triple the code computes |
| Gestures.AnchoredAgreesBetweenGestures | app/index.tsx:56-67 | corrected: when every position re-render arrives while no pan runs and every scale re-render while no pinch runs, the anchored rule computes exactly the code's live triple, its props are the code's props, and each running base equals them |
| Controllers.TextController.constructor | app/index.tsx:10-16 | a new text controller is in display mode with the draft equal to the label and the offset at the initial position |
| Controllers.TextController.PanUpdate | app/index.tsx:18-21 | the offset becomes translation plus the current position props, and stays equal to the replay of the callbacks so far |
| Controllers.TextController.PanEnd | app/index.tsx:22-24 | commits `(id, offsetX, offsetY)`, which is the replayed live offset; the live values are untouched |
| Controllers.TextController.Rerender | app/index.tsx:224 | a re-render sets the position props that later pan updates add to; the live offset and the draft text are untouched |
| Controllers.TextController.Press | app/index.tsx:40 | a tap in display mode switches to edit mode and selects this element's id |
| Controllers.TextController.ChangeText | app/index.tsx:38 | typing replaces the draft text |
| Controllers.TextController.Blur | app/index.tsx:38 | losing focus returns to display mode and commits the draft as this element's label |
| Controllers.TransformController.constructor | app/index.tsx:51-54 | a new controller's live triple equals the committed triple it was built from |
| Controllers.TransformController.PanUpdate | app/index.tsx:56-58 | the offset becomes translation plus the current position props; the scale is kept |
| Controllers.TransformController.PinchUpdate | app/index.tsx:63-64 | the scale becomes factor times the current scale prop; the offset is kept |
| Controllers.TransformController.PanEnd | app/index.tsx:59-60 | commits the full current triple; the commit history grows by exactly that triple |
| Controllers.TransformController.PinchEnd | app/index.tsx:65-66 | commits the full current triple; the commit history grows by exactly that triple |
| Controllers.TransformController.Press | app/index.tsx:81 | a tap on a shape or an image hands its own id to `onSelect` and changes nothing in the controller |
| Controllers.TransformController.Rerender | app/index.tsx:228-236 | a re-render sets the props (x, y, scale) that later updates read; the live triple is untouched |
| Controllers.AnchoredController.constructor | app/index.tsx:51-54 | corrected: a new controller shows its props, and no gesture is running |
| Controllers.AnchoredController.PanUpdate | app/index.tsx:56-58 | corrected: the first update of a pan fixes its base at the current props, later ones keep it; the offset is base plus translation and the scale is kept |
| Controllers.AnchoredController.PinchUpdate | app/index.tsx:63-64 | corrected: the first update of a pinch fixes its base scale, later ones keep it; the scale is factor times base |
| Controllers.AnchoredController.PanEnd | app/index.tsx:59-60 | corrected: commits the full current triple and ends the pan |
| Controllers.AnchoredController.PinchEnd | app/index.tsx:65-66 | corrected: commits the full current triple and ends the pinch |
| Controllers.AnchoredController.Press | app/index.tsx:124 | a tap hands the element's own id to `onSelect` and changes nothing in the controller |
| Controllers.AnchoredController.Rerender | app/index.tsx:228-236 | corrected: a re-render sets the props the next gesture starts from; a running gesture keeps its base |
| Scenarios.PanAndPinchRectangle | app/index.tsx:146-180 | a new rectangle panned by (50, -20) and pinched by 1.5 ends up as `(50, -20, 1.5)`, whichever gesture ends first, with the first commit re-rendering it |
| Scenarios.TwoPansAccumulate | app/index.tsx:56-61 | two drags of (10, 0) and (5, 0) in a row leave the rectangle at (15, 0): the re-render after the first commit makes the second drag start from there |
| Scenarios.PinchEndsMidPanCountsTwice | app/index.tsx:56-67 | as written: a pinch that ends during a pan, followed by the pan reporting (50, -20) once more, leaves the rectangle at (100, -40, 1.5) |
| Scenarios.PanEndsMidPinchCompounds | app/index.tsx:56-67 | as written: a pan that ends during a pinch, followed by the pinch reporting factor 2 once more, leaves the rectangle at scale 4 |
| Scenarios.PinchEndsMidPanAnchored | app/index.tsx:56-67 | corrected: the same interaction leaves the rectangle at (50, -20, 1.5) |
| Scenarios.PanEndsMidPinchAnchored | app/index.tsx:56-67 | corrected: the same interaction leaves the rectangle at scale 2 |
| Scenarios.TwoPansAccumulateAnchored | app/index.tsx:56-61 | corrected: two drags in a row still accumulate to (15, 0) |
| Scenarios.EditTextLabel | app/index.tsx:36-40 | a new text, tapped, edited to "Hello" and blurred, stores the label "Hello", is selected, and is back in display mode |
| Scenarios.StaleImageCommit | app/index.tsx:185-194 | a drag commit arriving after its image was tapped, selected and removed finds nothing, so the image list stays empty and nothing is selected |

## Findings

| source | as written | input that shows it | evidently intended | confidence | as-written member | corrected member |
|---|---|---|---|---|---|---|
| app/index.tsx:56-67 | each pan update adds the cumulative translation to the current `initialX`/`initialY` props, and a pinch end that commits mid-pan re-renders the element with those props moved to the live offset | rectangle at (0, 0, 1): pan update (50, -20), pinch update 1.5, pinch end with re-render, pan update (50, -20), pan end; commits (100, -40, 1.5) | a pan commits its base at gesture start plus its translation, (50, -20, 1.5) | medium, not executed: assumes a running gesture gets the callbacks of the latest render | Scenarios.PinchEndsMidPanCountsTwice | Gestures.AnchoredPanKeepsBase |
| app/index.tsx:56-67 | each pinch update multiplies the cumulative factor by the current `initialScale` prop, and a pan end that commits mid-pinch re-renders the element with that prop moved to the live scale | rectangle at (0, 0, 1): pinch update 2, pan update (10, 0), pan end with re-render, pinch update 2, pinch end; commits (10, 0, 4) | a pinch commits its base scale at gesture start times its factor, (10, 0, 2) | medium, not executed: same assumption | Scenarios.PanEndsMidPinchCompounds | Gestures.AnchoredPinchKeepsBase |

`TextController` and `TransformController` model the code as written. The
corrected rule is the anchored replay in `Gestures`, which takes each
gesture's base from the props at its first update, and
`Controllers.AnchoredController`, which keeps to it.
`Gestures.AnchoredAgreesWithinOneRender` shows that the anchored rule agrees
with the code as long as the element is never re-rendered.
`Gestures.AnchoredAgreesBetweenGestures` extends the agreement to every
history in which each re-render of the position arrives while no pan runs and
each re-render of the scale arrives while no pinch runs.
`Scenarios.PinchEndsMidPanAnchored`, `Scenarios.PanEndsMidPinchAnchored` and
`Scenarios.TwoPansAccumulateAnchored` run the same interactions under it.

## Left out

- JSX rendering, styles and the animated style objects. They are presentation only (`app/index.tsx:26-28`, `71-77`, `253-293`).
- The permission and picker dialogs and the alert, inside `addImage`. Those are asynchronous foreign calls. The permission answer and the picker result are parameters of `Editor.AddImage`.
- `exportDesign`: ViewShot capture, asset and album creation, and its alerts. These are foreign I/O. It writes no editor state, and the model has no operation for it.
- The gesture-recognizer runtime, `Gesture.Simultaneous` and `runOnJS`. Simultaneous recognizers are modelled as arbitrary sequential interleavings of their callbacks.
- `Date.now()`. Ids are parameters.
- The `useEffect` focus handling and the input ref. This is UI plumbing.
- React's scheduling of re-renders. A commit's re-render reaches a controller when the caller invokes `Rerender`, at whatever point of the callback interleaving the caller chooses; the model does not decide when React delivers it.
- The label prop on re-render. `DraggableText` keeps its draft text in `useState`, so a new label prop does not reach it, and `TextController.Rerender` takes only the position.
- JavaScript numbers are doubles. Coordinates and scales are exact `real`s here, because the code only adds and multiplies them.
- The rule that only one text is edited at a time. The code does not enforce it. Each `TextController` has its own mode, and nothing relates two of them.
