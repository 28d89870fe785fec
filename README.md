# EmojiMaker in Dafny

A verified model of the core of EmojiMaker, an iOS sticker editor. The model covers:

- the document: an `Emoji` holding an ordered list of `EmojiElement`s, with its in-place
  element operations and the `[x, y]` coding of `CGPoint`;
- the editing session (`EmojiEditorViewController`):
  - selection;
  - the three gesture handlers, each relative to a baseline;
  - paint order by z-position and the canonical view transform;
  - the font change and the animate toggle;
- the animation controller (`AnimationManager`):
  - the start/stop flag and timer;
  - the per-tick waveform, chosen by an element's place in the list;
  - the reset to the editor's transform;
  - the export branching;
- the library (`MainViewController`): the upsert on save and the three seed documents.

State the source changes in place is kept in classes:

- `Emoji.elements`;
- the editor's selection, gesture baselines and button title;
- the canvas's `subviews`;
- the animation manager's flag and timer;
- the library's `emojis`.

Each method's postcondition ties its new state to a pure function of the old state. The
properties are proved about those functions.

Files, each one module (`wrappers.dfy` and `geometry.dfy` hold two each):

| file | module | models |
|---|---|---|
| `wrappers.dfy` | `Wrappers`, `Collections` | `Option`/`Result`, and `firstIndex` on a list |
| `geometry.dfy` | `Geometry`, `TransformMath` | `CGPoint` and its codec; the transform as a list of Core Graphics calls |
| `emoji_model.dfy` | `EmojiModel` | `EmojiElement`, `Emoji` and the z-order and removal functions |
| `views.dfy` | `Views` | the canvas and its element views, looked up by tag |
| `editor.dfy` | `Editor` | `EmojiEditorViewController` and the paint order |
| `animation.dfy` | `Animation` | `AnimationManager` |
| `gallery.dfy` | `Gallery` | `MainViewController` |

Modelling choices:

- `CGFloat` and `TimeInterval` are `real`. Dates are `real`s supplied by the caller.
- Swift's `Int` is a 64-bit subset type. Moving to front or back traps in Swift when
  `max + 1` or `min - 1` overflows. That is the precondition of those operations, and it
  applies only when the id is present.
- `UUID()` and `Date()` are random or clock-driven, so fresh ids and times are parameters.
- A transform is the list of `scaledBy`/`rotated`/`translatedBy` calls in call order. No
  trigonometry is computed. The animation's `.pi / 8` is kept as `RotateByPiTimes(0.125)`.
- A view's `tag` is the element id itself. Views are values in the canvas's `subviews`
  list, so a view's `transform`, `center` and layer animations are fields of that value.
- Whether `UIImage(data:)` accepts some bytes is a function given to the editor.
- Hit testing is given to `HandleTap` as the tags of the views under the tap, topmost
  first.
- The gesture recognisers' state, translation, scale and rotation are parameters.
- A graphics context for rendering may or may not be available; that is a parameter of the
  export.

Two behaviours of the code are worth stating:

- Paint order. `renderEmoji` calls Swift's `sorted` on z-position, and `sorted` does not
  document whether it is stable. The model sorts by insertion, which keeps list order among
  equal z-positions; `Editor.PaintOrderKeepsTies` proves this when all z-positions are equal. `Editor.PaintOrderSortsByZ` states only
  what `sorted` promises: a permutation with non-decreasing z-position.
- Gesture baselines. On `.began` the handlers read the baseline from `selectedElement`. That
  is a copy taken when the element was selected, and the handlers never refresh it. So a
  second pan starts from the position at selection time, not from where the first pan left
  the element. `Editor.PanTwice` states this outcome.

## Model

| member | source | states |
|---|---|---|
| `EmojiModel.NewElement` | Models/EmojiModel.swift:15-28 | the memberwise initializer with the source's default arguments |
| `EmojiModel.DefaultElement` | Models/EmojiModel.swift:15-17 | a default element has font "Helvetica", size 40, position zero, scale 1, rotation 0, z-position 0 and is not flipped |
| `EmojiModel.Emoji.constructor` | Models/EmojiModel.swift:39-47 | every field takes the given value; name, elements, animated flag and duration default to "New Emoji", empty, false and 1.0 |
| `EmojiModel.NewDocument` | Models/EmojiModel.swift:39-40 | a default document is named "New Emoji", has no elements, is not animated and lasts 1.0 s |
| `EmojiModel.IndexOfId` | Models/EmojiModel.swift:58 | the index found holds the id and no earlier element does; none is found exactly when no element has the id |
| `EmojiModel.IndexOfIdUpdate` | ViewControllers/EmojiEditorViewController.swift:245 | rewriting one element without changing its id leaves every id lookup unchanged |
| `EmojiModel.IndexOfIdSnoc` | Models/EmojiModel.swift:49-51 | after an append, a lookup finds the old match first, otherwise the appended element |
| `EmojiModel.Emoji.AddElement` | Models/EmojiModel.swift:49-51 | the new list is the old one with the element appended at the end, with no check for a duplicate id |
| `EmojiModel.Emoji.RemoveElement` | Models/EmojiModel.swift:53-55 | the new list is the old one without every element that has the id |
| `EmojiModel.RemoveAllWithId` | Models/EmojiModel.swift:53-55 | no element of the result has the id, and the result is no longer than the input |
| `EmojiModel.RemoveAllCounts` | Models/EmojiModel.swift:53-55 | every element with the id is dropped and every other element keeps its multiplicity |
| `EmojiModel.RemoveAllAppend` | Models/EmojiModel.swift:53-55 | removal distributes over concatenation, so the survivors keep their relative order |
| `EmojiModel.RemoveAbsentIsNoop` | Models/EmojiModel.swift:53-55 | removing an id no element has changes nothing |
| `EmojiModel.MaxZ` | Models/EmojiModel.swift:59 | the maximum z-position is at least every element's and is reached by one of them; 0 for an empty list |
| `EmojiModel.MinZ` | Models/EmojiModel.swift:67 | the minimum z-position is at most every element's and is reached by one of them; 0 for an empty list |
| `EmojiModel.BringToFront` | Models/EmojiModel.swift:57-63 | absent id: no change. Otherwise only the first match's z-position changes, to the old maximum + 1; so it rises above its old value and above every other element, and the length and all other elements stay |
| `EmojiModel.SendToBack` | Models/EmojiModel.swift:65-71 | absent id: no change. Otherwise only the first match's z-position changes, to the old minimum - 1; so it falls below its old value and below every other element, and the rest stays |
| `EmojiModel.BringToFrontTwice` | Models/EmojiModel.swift:57-63 | a second bring-to-front finds the same element, raises it again and it stays the maximum |
| `EmojiModel.SendToBackTwice` | Models/EmojiModel.swift:65-71 | a second send-to-back finds the same element, lowers it again and it stays the minimum |
| `EmojiModel.Emoji.MoveElementToFront` | Models/EmojiModel.swift:57-63 | the new list is `BringToFront` of the old one; the source traps if max + 1 overflows |
| `EmojiModel.Emoji.MoveElementToBack` | Models/EmojiModel.swift:65-71 | the new list is `SendToBack` of the old one; the source traps if min - 1 overflows |
| `Geometry.EncodePoint` | Models/EmojiModel.swift:83-87 | a point is coded as exactly two values |
| `Geometry.DecodeNumber` | Models/EmojiModel.swift:78-79 | one decode succeeds iff a number is at that position; past the end it fails with value-not-found |
| `Geometry.DecodePoint` | Models/EmojiModel.swift:76-81 | decoding succeeds iff the first two values are numbers, giving (x, y) in that order; too short a container fails with value-not-found |
| `Geometry.PointRoundTrip` | Models/EmojiModel.swift:76-87 | decode(encode(p)) == p for every point |
| `Geometry.PointRoundTripBack` | Models/EmojiModel.swift:76-87 | a two-number container is the encoding of the point it decodes to |
| `Geometry.DecodeIgnoresTrailing` | Models/EmojiModel.swift:76-81 | values after [x, y] do not change the decoded point |
| `TransformMath.Canonical` | ViewControllers/EmojiEditorViewController.swift:195-197 | a scale with vertical factor `scale` and horizontal factor `-scale` when flipped, else `scale`, then a rotation by `rotation` |
| `TransformMath.FlipNegatesHorizontalOnly` | ViewControllers/EmojiEditorViewController.swift:196 | flipping negates only the horizontal factor; the vertical factor and the rotation stay |
| `TransformMath.CanonicalInjective` | ViewControllers/EmojiEditorViewController.swift:195-197 | equal call lists come from equal scale and rotation, and from equal flip unless the scale is 0 (a fact about the call list, not about the matrix it denotes) |
| `Views.CanvasView.constructor` | ViewControllers/EmojiEditorViewController.swift:16-23 | a new canvas has no subviews and the given size |
| `Views.ConfigureElementView` | ViewControllers/EmojiEditorViewController.swift:187-208 | the view is tagged with the element's id, centered at its position, carries the canonical transform of its scale, flip and rotation, has no animations, and is bordered iff the selection snapshot has the same id |
| `Views.ViewWithTag` | Managers/AnimationManager.swift:55 | the index found carries the tag and no earlier view does; none is found exactly when no view carries it |
| `Editor.InsertByZ` | ViewControllers/EmojiEditorViewController.swift:171 | one insertion step: one element longer, and it starts with the inserted element or the old head |
| `Editor.InsertByZSorted` | ViewControllers/EmojiEditorViewController.swift:171 | inserting into a list sorted by z-position keeps it sorted |
| `Editor.InsertByZCounts` | ViewControllers/EmojiEditorViewController.swift:171 | inserting adds exactly the one element |
| `Editor.PaintOrder` | ViewControllers/EmojiEditorViewController.swift:171 | the elements in paint order, as many as there are elements; what the order is is stated by the next two rows |
| `Editor.PaintOrderSortsByZ` | ViewControllers/EmojiEditorViewController.swift:171 | paint order is a permutation of the elements with non-decreasing z-position |
| `Editor.PaintOrderKeepsTies` | ViewControllers/EmojiEditorViewController.swift:171 | elements that all share one z-position are painted in list order (the model's tie order; see Left out) |
| `Editor.ViewFor` | ViewControllers/EmojiEditorViewController.swift:174-183 | an element gets a view iff its image data decodes or it has both text and font; decodable image data wins over text; otherwise the view is a label of the element's text, font name and font size; the view is the configured view of that element |
| `Editor.ViewsForMembers` | ViewControllers/EmojiEditorViewController.swift:173-184 | a view is added iff some element of the list produces it |
| `Editor.RenderedViews` | ViewControllers/EmojiEditorViewController.swift:161-208 | a view is on the rendered canvas iff an element produces it; each is tagged with its element's id, centered at its position, carries its canonical transform and has no animations |
| `Editor.TapTarget` | ViewControllers/EmojiEditorViewController.swift:211-227 | a selected element is in the document and under the tap; nothing is selected iff no view under the tap names an element |
| `Editor.TapTargetIsFirstHit` | ViewControllers/EmojiEditorViewController.swift:215-219 | the topmost hit naming an element wins, and the element selected is the first one of the document with that id |
| `Editor.EmojiEditorViewController.constructor` | ViewControllers/EmojiEditorViewController.swift:9-13 | no selection, baselines zero, 1.0 and 0.0, an empty canvas of the given size |
| `Editor.EmojiEditorViewController.SelectedIndex` | ViewControllers/EmojiEditorViewController.swift:230-231 | the handlers' guard: an index of the selected id in the document, and none iff there is no document, no selection or no such element |
| `Editor.EmojiEditorViewController.ViewDidLoad` | ViewControllers/EmojiEditorViewController.swift:68-78 | a missing document becomes a default one; the canvas is then rendered |
| `Editor.EmojiEditorViewController.RenderEmoji` | ViewControllers/EmojiEditorViewController.swift:161-185 | the canvas becomes exactly the views of the renderable elements in paint order |
| `Editor.EmojiEditorViewController.SelectElement` | ViewControllers/EmojiEditorViewController.swift:287-290 | the selection is replaced by the given element (no toggle); the canvas is re-rendered |
| `Editor.EmojiEditorViewController.DeselectElement` | ViewControllers/EmojiEditorViewController.swift:292-295 | the selection is cleared; the canvas is re-rendered |
| `Editor.EmojiEditorViewController.HandleTap` | ViewControllers/EmojiEditorViewController.swift:211-227 | the selection becomes the topmost element under the tap, or none |
| `Editor.EmojiEditorViewController.WriteBack` | ViewControllers/EmojiEditorViewController.swift:245-246 | one element is replaced, the selection still finds it, and the canvas is re-rendered |
| `Editor.EmojiEditorViewController.HandlePan` | ViewControllers/EmojiEditorViewController.swift:229-250 | a no-op without a selection in the document or outside began/changed; began stores the snapshot's position; changed writes baseline + translation into that element's position only |
| `Editor.EmojiEditorViewController.HandlePinch` | ViewControllers/EmojiEditorViewController.swift:252-267 | the same guard; began stores the snapshot's scale; changed writes baseline × gesture scale into that element's scale only |
| `Editor.EmojiEditorViewController.HandleRotation` | ViewControllers/EmojiEditorViewController.swift:269-284 | the same guard; began stores the snapshot's rotation; changed writes baseline + gesture rotation into that element's rotation only |
| `Editor.PanTwice` | ViewControllers/EmojiEditorViewController.swift:229-250 | a second pan starts again from the selection snapshot's position, not from where the first pan left the element |
| `Editor.PinchTwice` | ViewControllers/EmojiEditorViewController.swift:252-267 | updates of 2.0 then 0.5 leave the scale at twice, then half, the baseline, not at their product |
| `Editor.RotateTwice` | ViewControllers/EmojiEditorViewController.swift:269-284 | successive rotation updates are each relative to the same baseline |
| `Editor.EmojiEditorViewController.DidSelectFont` | ViewControllers/EmojiEditorViewController.swift:401-408 | the font of the selected element is set only if it is in the document and the snapshot has text; otherwise nothing changes |
| `Editor.EmojiEditorViewController.AnimateButtonTapped` | ViewControllers/EmojiEditorViewController.swift:331-345 | only the document's animated flag and the button title change; the flag is toggled when a document is loaded; the title is "Stop Animation" iff the document is now animated, else "Animate" |
| `Editor.EmojiEditorViewController.AddText` | ViewControllers/EmojiEditorViewController.swift:305-314 | an empty or missing text changes nothing; otherwise a default text element at the canvas center is appended, rendered and selected |
| `Editor.EmojiEditorViewController.AddImage` | ViewControllers/EmojiEditorViewController.swift:377-392 | without PNG data nothing changes; otherwise a default image element at the canvas center is appended, rendered and selected |
| `Animation.WaveformAt` | Managers/AnimationManager.swift:58-75 | the waveform of list position i has code i mod 4: bounce, rotate, pulse, shake |
| `Animation.WaveformCycle` | Managers/AnimationManager.swift:58 | positions four apart share a waveform; neighbouring positions never do |
| `Animation.WithoutKey` | Managers/AnimationManager.swift:103 | dropping the animation under a key keeps exactly the others |
| `Animation.WithoutKeyAppend` | Managers/AnimationManager.swift:103 | dropping a key distributes over concatenation |
| `Animation.WithoutKeyIdempotent` | Managers/AnimationManager.swift:103 | dropping a key twice is dropping it once |
| `Animation.ApplyWaveform` | Managers/AnimationManager.swift:79-104 | tag, content, center and border stay; the transform gains the waveform's step (translate 0,-10; rotate pi/8; scale 1.1; none for shake); bounce, rotate and pulse keep every earlier animation and add theirs last; shake drops only the animation under "shake" and adds its own last |
| `Animation.ShakeTwiceIsShakeOnce` | Managers/AnimationManager.swift:97-104 | a second shake replaces the first, since it is added under the same key |
| `Animation.Restore` | Managers/AnimationManager.swift:113-122 | tag, content and border stay when a view is reset; the center goes back to the element's position and every animation is removed; the transform is rebuilt by the reset loop's own scale and rotation calls |
| `Animation.RestoreMatchesEditor` | Managers/AnimationManager.swift:116-122 | a reset view equals the view the editor configures for the element: the reset loop's transform calls (:116-118) build the same transform as the editor's (EmojiEditorViewController.swift:195-197) |
| `Animation.RestoreForgetsWaveform` | Managers/AnimationManager.swift:106-125 | a reset after any waveform gives what a reset alone gives |
| `Animation.VisitTagged` | Managers/AnimationManager.swift:54-56 | one loop iteration: without a view tagged with the element's id the canvas stays (`continue`); otherwise the first such view is visited and every other view stays; the number of views and their tags stay |
| `Animation.Visit` | Managers/AnimationManager.swift:54-75 | visiting a view in a tick or a reset keeps its tag |
| `Animation.Sweep` | Managers/AnimationManager.swift:54-76 | a pass keeps the number of views and their tags |
| `Animation.SweepAt` | Managers/AnimationManager.swift:54-76 | with unique ids, the first view tagged with an element's id is visited with that element and its list position; all other views stay |
| `Animation.TickAt` | Managers/AnimationManager.swift:54-75 | in a tick, the view of the element at list position k gets waveform k mod 4 |
| `Animation.Ticks` | Managers/AnimationManager.swift:27-33 | repeated ticks keep the number of views and their tags |
| `Animation.ResetAfterTick` | Managers/AnimationManager.swift:106-125 | resetting after a tick gives what resetting before it gives |
| `Animation.ResetAfterTicks` | Managers/AnimationManager.swift:36-43 | stopping after any number of ticks gives the same views |
| `Animation.ResetIdempotent` | Managers/AnimationManager.swift:106-125 | resetting twice is resetting once |
| `Animation.RenderedViewAtRest` | Managers/AnimationManager.swift:116-122 | a view the editor rendered is unchanged by a reset for its element |
| `Animation.ResetRenderedIsNoop` | Managers/AnimationManager.swift:106-125 | a reset leaves the editor's rendered canvas unchanged |
| `Animation.StopRestoresEditorCanvas` | Managers/AnimationManager.swift:36-43 | animating the editor's canvas for any number of ticks and then stopping gives back exactly the editor's canvas |
| `Animation.AnimationManager.constructor` | Managers/AnimationManager.swift:6-14 | the canvas is set, with no document, not animating and no timer |
| `Animation.AnimationManager.SetEmoji` | Managers/AnimationManager.swift:17-19 | the document is set |
| `Animation.AnimationManager.StartAnimation` | Managers/AnimationManager.swift:21-34 | starts (flag set, a repeating 0.05 s timer) only with an animated document while not already animating; otherwise nothing changes |
| `Animation.AnimationManager.StopAnimation` | Managers/AnimationManager.swift:36-43 | always ends not animating with no timer, and the views are reset |
| `Animation.AnimationManager.IsCurrentlyAnimating` | Managers/AnimationManager.swift:45-47 | returns exactly the flag |
| `Animation.AnimationManager.AnimationTick` | Managers/AnimationManager.swift:50-77 | the canvas becomes the tick pass over the document's elements, or stays when there is no document |
| `Animation.AnimationManager.ResetElements` | Managers/AnimationManager.swift:106-125 | the canvas becomes the reset pass over the document's elements, or stays when there is no document |
| `Animation.AnimationManager.ExportAnimatedEmoji` | Managers/AnimationManager.swift:128-150 | no image iff there is no document, no canvas or no graphics context; otherwise the same single render whether animated or not |
| `Animation.AnimationManager.RenderToImage` | Managers/AnimationManager.swift:152-162 | an image of the canvas's size and views iff there is a canvas and a context |
| `Gallery.IndexOfEmoji` | ViewControllers/MainViewController.swift:121 | the index found holds the id and no earlier document does; none iff no document has it |
| `Gallery.Upsert` | ViewControllers/MainViewController.swift:120-127 | the saved document is in the library, the library grows by at most one, and every document with another id stays |
| `Gallery.UpsertReplaces` | ViewControllers/MainViewController.swift:121-122 | an entry with the same id is replaced in place; the length and every other entry stay |
| `Gallery.UpsertAppends` | ViewControllers/MainViewController.swift:123-124 | with no entry of that id, the document is appended at the end |
| `Gallery.UpsertFinds` | ViewControllers/MainViewController.swift:120-127 | after a save the document is found under its id, at its old place or at the end |
| `Gallery.UpsertIdempotent` | ViewControllers/MainViewController.swift:120-127 | saving the same document twice equals saving it once |
| `Gallery.UpsertKeepsIdsUnique` | ViewControllers/MainViewController.swift:120-127 | a library without duplicate ids keeps none after a save |
| `Gallery.MainViewController.constructor` | ViewControllers/MainViewController.swift:29 | the library starts empty |
| `Gallery.MainViewController.LoadSavedEmojis` | ViewControllers/MainViewController.swift:65-74 | the library holds three new default documents named "Happy Face", "Cool Emoji" and "Party Time", in that order, each with its own id and creation date |
| `Gallery.MainViewController.DidSaveEmoji` | ViewControllers/MainViewController.swift:120-127 | the library becomes the upsert of the saved document |

## Left out

- UIKit layout, buttons, navigation, alerts and the image picker UI are left out. So are `EmojiCell`, `FontCell`, the save/cancel/done actions and the delegate wiring. They are UI plumbing with no logic to verify.
- Hit testing by `frame.contains` is left out. It depends on view geometry, so `HandleTap` takes the tags under the tap as a parameter.
- View tags are not modelled as `hashValue`. Tags are element ids, so the hash truncation and its possible collisions are not captured.
- `Timer` firing, `UIView.animate` and `CAKeyframeAnimation` playback are not modelled: they are driven by the run loop and the animation engine. A tick is modelled as one call to `AnimationTick`. The model keeps the views' model values and records the repeating animations added.
- Animation.Restore does not record the one-off 0.2 s animation that moves a view back to rest. It records only the values the view comes to rest at.
- `renderToImage`'s drawing into a graphics context is left out. An image is the canvas's size and views. Whether a context opens is a parameter.
- `Managers/EmojiExportManager.swift` is not part of this model. It covers the photo album, Messages and alerts, which are I/O.
- `Views/FontKeyboardView.swift` and `FontKeyboardViewController` are not part of this model. They are a collection-view UI over a static font list; only their callback, `didSelectFont`, is modelled.
- `UIFont(name:size:)` with its system-font fallback is not modelled. A label records the font name and size it was asked for.
- `UIImage(data:)` is not modelled. It is the editor's `decodes` parameter.
- `image.pngData()` is not modelled. `AddImage` takes its result as a parameter.
- The trigonometry and IEEE floating point of `CGAffineTransform` are not modelled. Transforms are symbolic, and `CGFloat` is an exact `real`.
- Codable for `UUID`, `Data` and `Date` comes from Foundation and is not modelled. The `Emoji` and `EmojiElement` synthesized coding is left out too. Only the hand-written `CGPoint` coding is modelled.
- `startAnimationPreview` and `stopAnimationPreview` are empty in the source. `AnimateButtonTapped` therefore only toggles and retitles.
- Gesture cancellation is not modelled beyond the source's own behaviour. Cancelled, ended, failed and possible states fall into `default: break`; nothing reverts to the baseline.
- The `weak` canvas reference in `AnimationManager` is modelled as a nullable field. Its deallocation by the runtime is not modelled.
- Animation.SweepAt and the lemmas built on it assume unique element ids. Every element the app creates gets a fresh `UUID()`, but `addElement` does not check for duplicates.
- Editor.PaintOrder: the model's sort keeps list order among equal z-positions, so the render contracts (`canvas.subviews == Scene()`) fix a tie order that Swift's `sorted` does not document. Only `Editor.PaintOrderSortsByZ` is limited to what `sorted` promises.
