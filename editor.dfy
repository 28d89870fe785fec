/**
 * The editing session of ViewControllers/EmojiEditorViewController.swift:
 * paint order, rendering into the canvas, selection, the three
 * baseline-relative gesture handlers, the font change and the animate toggle.
 */
module Editor {
  import opened Wrappers
  import opened Geometry
  import opened TransformMath
  import opened EmojiModel
  import opened Views

  // ---------------------------------------------------------------- paint order

  predicate ZSorted(s: seq<EmojiElement>)
  {
    forall i, j :: 0 <= i < j < |s| ==> s[i].zPosition <= s[j].zPosition
  }

  /** Inserts `e` before the first element of `s` that is not below it. */
  function InsertByZ(e: EmojiElement, s: seq<EmojiElement>): (r: seq<EmojiElement>)
    ensures |r| == |s| + 1 && (r[0] == e || (s != [] && r[0] == s[0]))
  {
    if s == [] then [e]
    else if e.zPosition <= s[0].zPosition then [e] + s
    else [s[0]] + InsertByZ(e, s[1..])
  }

  lemma {:induction false} InsertByZSorted(e: EmojiElement, s: seq<EmojiElement>)
    requires ZSorted(s)
    ensures ZSorted(InsertByZ(e, s))
  {
    if s != [] && e.zPosition > s[0].zPosition {
      var rest := InsertByZ(e, s[1..]);
      InsertByZSorted(e, s[1..]);
      assert s[0].zPosition <= rest[0].zPosition;
    }
  }

  lemma {:induction false} InsertByZCounts(e: EmojiElement, s: seq<EmojiElement>)
    ensures multiset(InsertByZ(e, s)) == multiset(s) + multiset{e}
  {
    if s != [] && e.zPosition > s[0].zPosition {
      InsertByZCounts(e, s[1..]);
      assert s == [s[0]] + s[1..];
    }
  }

  /**
   * `emoji.elements.sorted { $0.zPosition < $1.zPosition }`, as an insertion sort. This
   * sort keeps list order among equal z-positions, which `sorted` does not document.
   */
  function PaintOrder(es: seq<EmojiElement>): (r: seq<EmojiElement>)
    ensures |r| == |es|
  {
    if es == [] then [] else InsertByZ(es[0], PaintOrder(es[1..]))
  }

  /**
   * Paint order is a permutation of the elements with non-decreasing z-position.
   * Swift does not promise a stable sort, so nothing is said about the order of
   * elements with equal z-positions.
   */
  lemma {:induction false} PaintOrderSortsByZ(es: seq<EmojiElement>)
    ensures ZSorted(PaintOrder(es))
    ensures multiset(PaintOrder(es)) == multiset(es)
  {
    if es != [] {
      var rest := PaintOrder(es[1..]);
      PaintOrderSortsByZ(es[1..]);
      InsertByZSorted(es[0], rest);
      InsertByZCounts(es[0], rest);
      assert es == [es[0]] + es[1..];
    }
  }

  /** Elements that all share one z-position (new elements all start at 0) are painted in list order. */
  lemma {:induction false} PaintOrderKeepsTies(es: seq<EmojiElement>)
    requires forall i :: 0 <= i < |es| ==> es[i].zPosition == es[0].zPosition
    ensures PaintOrder(es) == es
  {
    if es != [] {
      var rest := es[1..];
      if rest != [] {
        assert forall i :: 0 <= i < |rest| ==> rest[i].zPosition == rest[0].zPosition == es[0].zPosition;
      }
      PaintOrderKeepsTies(rest);
      assert es == [es[0]] + rest;
    }
  }

  // ---------------------------------------------------------------- rendering

  /**
   * The view made for one element in `renderEmoji`: an image view when the image
   * data decodes, else a label when both text and font are present, else nothing.
   */
  function ViewFor(e: EmojiElement, selection: Option<EmojiElement>, decodes: Bytes -> bool): (r: Option<ElementView>)
    ensures r.Some? <==> (e.imageData.Some? && decodes(e.imageData.value)) || (e.text.Some? && e.font.Some?)
    ensures r.Some? ==> r.value == ConfigureElementView(e, r.value.content, selection)
    ensures r.Some? && e.imageData.Some? && decodes(e.imageData.value) ==> r.value.content == ImageView(e.imageData.value)
    ensures r.Some? && !(e.imageData.Some? && decodes(e.imageData.value)) ==>
      r.value.content == Label(e.text.value, e.font.value, e.fontSize)
  {
    if e.imageData.Some? && decodes(e.imageData.value) then
      Some(ConfigureElementView(e, ImageView(e.imageData.value), selection))
    else if e.text.Some? && e.font.Some? then
      Some(ConfigureElementView(e, Label(e.text.value, e.font.value, e.fontSize), selection))
    else None
  }

  /** The subviews added for a list of elements, in list order. */
  function ViewsFor(s: seq<EmojiElement>, selection: Option<EmojiElement>, decodes: Bytes -> bool): seq<ElementView>
  {
    if s == [] then []
    else
      var last := ViewFor(s[|s| - 1], selection, decodes);
      ViewsFor(s[..|s| - 1], selection, decodes) + (if last.Some? then [last.value] else [])
  }

  /** The canvas contents after `renderEmoji`. */
  function Rendered(es: seq<EmojiElement>, selection: Option<EmojiElement>, decodes: Bytes -> bool): seq<ElementView>
  {
    ViewsFor(PaintOrder(es), selection, decodes)
  }

  lemma {:induction false} ViewsForMembers(s: seq<EmojiElement>, selection: Option<EmojiElement>,
                                           decodes: Bytes -> bool, v: ElementView)
    ensures v in ViewsFor(s, selection, decodes) <==> exists e :: e in s && ViewFor(e, selection, decodes) == Some(v)
  {
    if s != [] {
      var init := s[..|s| - 1];
      ViewsForMembers(init, selection, decodes, v);
      assert s == init + [s[|s| - 1]];
      if exists e :: e in s && ViewFor(e, selection, decodes) == Some(v) {
        var e :| e in s && ViewFor(e, selection, decodes) == Some(v);
        if e != s[|s| - 1] {
          assert e in init;
        }
      }
    }
  }

  /**
   * Exactly the renderable elements are drawn: a view is on the rendered canvas
   * if and only if some element of the document produces it. Every such view is
   * centered at its element's position and carries its canonical transform.
   */
  lemma RenderedViews(es: seq<EmojiElement>, selection: Option<EmojiElement>, decodes: Bytes -> bool, v: ElementView)
    ensures v in Rendered(es, selection, decodes) <==> exists e :: e in es && ViewFor(e, selection, decodes) == Some(v)
    ensures v in Rendered(es, selection, decodes) ==>
      exists e :: e in es && v.tag == e.id && v.center == e.position && v.transform == ElementTransform(e) && v.animations == []
  {
    var p := PaintOrder(es);
    PaintOrderSortsByZ(es);
    ViewsForMembers(p, selection, decodes, v);
    forall e ensures e in p <==> e in es {
      assert e in p <==> e in multiset(p);
      assert e in es <==> e in multiset(es);
    }
  }

  // ---------------------------------------------------------------- tapping

  /**
   * The element a tap selects: `hits` are the tags of the subviews whose frames
   * contain the tap, topmost first; the first of them naming an element wins.
   */
  function TapTarget(hits: seq<Uuid>, es: seq<EmojiElement>): (r: Option<EmojiElement>)
    ensures r.Some? ==> r.value in es && r.value.id in hits
    ensures r.None? <==> forall k :: 0 <= k < |hits| ==> IndexOfId(es, hits[k]).None?
  {
    if hits == [] then None
    else match IndexOfId(es, hits[0])
      case Some(i) => Some(es[i])
      case None =>
        var r := TapTarget(hits[1..], es);
        assert forall k :: 1 <= k < |hits| ==> hits[k] == hits[1..][k - 1];
        r
  }
  /** `hits[k]` is the topmost hit that names an element of `es`, and `e` is the first element with that id. */
  predicate FirstHit(hits: seq<Uuid>, es: seq<EmojiElement>, k: int, e: EmojiElement)
  {
    && 0 <= k < |hits|
    && (forall m :: 0 <= m < k ==> IndexOfId(es, hits[m]).None?)
    && IndexOfId(es, hits[k]).Some?
    && e == es[IndexOfId(es, hits[k]).value]
  }

  /** A hit naming no element, put on top, moves the first hit one place down. */
  lemma FirstHitShift(hits: seq<Uuid>, es: seq<EmojiElement>, k: int, e: EmojiElement)
    requires hits != [] && IndexOfId(es, hits[0]).None? && FirstHit(hits[1..], es, k, e)
    ensures FirstHit(hits, es, k + 1, e)
  {
    assert forall m :: 1 <= m <= k + 1 ==> hits[m] == hits[1..][m - 1];
  }

  /**
   * The topmost hit that names an element wins, and the element selected is the first
   * one of the document with that id (`first(where:)`).
   */
  lemma {:induction false} TapTargetIsFirstHit(hits: seq<Uuid>, es: seq<EmojiElement>)
    ensures TapTarget(hits, es).Some? ==> exists k :: FirstHit(hits, es, k, TapTarget(hits, es).value)
  {
    if hits == [] {
    } else if IndexOfId(es, hits[0]).Some? {
      assert FirstHit(hits, es, 0, TapTarget(hits, es).value);
    } else {
      var tail := hits[1..];
      TapTargetIsFirstHit(tail, es);
      var r := TapTarget(hits, es);
      assert r == TapTarget(tail, es);
      if r.Some? {
        var k :| FirstHit(tail, es, k, r.value);
        FirstHitShift(hits, es, k, r.value);
      }
    }
  }




  // ---------------------------------------------------------------- the session

  /** The pinch update multiplies the baseline scale by the gesture's cumulative scale factor. */
  function PinchedScale(baseline: real, gestureScale: real): real
  {
    baseline * gestureScale
  }

  /** `UIGestureRecognizer.State` */
  datatype GestureState = Possible | Began | Changed | Ended | Cancelled | Failed

  class EmojiEditorViewController {
    var emoji: Emoji?
    const canvas: CanvasView
    /** Whether `UIImage(data:)` accepts the bytes; image decoding is external. */
    const decodes: Bytes -> bool
    /** The selection: a copy of the element taken when it was selected. */
    var selectedElement: Option<EmojiElement>
    var initialElementPosition: Point
    var initialPanPosition: Point
    var initialPinchScale: real
    var initialRotation: real
    var animateButtonTitle: string

    constructor (canvasWidth: real, canvasHeight: real, decodes: Bytes -> bool)
      ensures fresh(canvas) && canvas.subviews == []
      ensures canvas.width == canvasWidth && canvas.height == canvasHeight
      ensures this.decodes == decodes && emoji == null && selectedElement == None
      ensures initialElementPosition == Zero && initialPanPosition == Zero
      ensures initialPinchScale == 1.0 && initialRotation == 0.0
      ensures animateButtonTitle == "Animate"
    {
      emoji := null;
      canvas := new CanvasView(canvasWidth, canvasHeight);
      this.decodes := decodes;
      selectedElement := None;
      initialElementPosition := Zero;
      initialPanPosition := Zero;
      initialPinchScale := 1.0;
      initialRotation := 0.0;
      animateButtonTitle := "Animate";
    }

    /** The loaded document, as a frame. */
    function Loaded(): set<Emoji>
      reads this
    {
      if emoji == null then {} else {emoji}
    }

    /** The document's elements, or none when no document is loaded. */
    function Document(): seq<EmojiElement>
      reads this, emoji
    {
      if emoji == null then [] else emoji.elements
    }

    /** What the canvas shows after `renderEmoji`. */
    function Scene(): seq<ElementView>
      reads this, emoji
    {
      if emoji == null then [] else Rendered(emoji.elements, selectedElement, decodes)
    }

    /** The gesture handlers' guard: the index of the first element with the selected id. */
    function SelectedIndex(): (r: Option<nat>)
      reads this, emoji
      ensures r.Some? ==> emoji != null && selectedElement.Some? && r.value < |emoji.elements|
      ensures r.Some? ==> emoji.elements[r.value].id == selectedElement.value.id
      ensures r.None? <==> emoji == null || selectedElement.None? || IndexOfId(emoji.elements, selectedElement.value.id).None?
    {
      if emoji == null || selectedElement.None? then None
      else IndexOfId(emoji.elements, selectedElement.value.id)
    }

    /** `viewDidLoad`: makes an empty document when none was given, then renders. */
    method ViewDidLoad(newId: Uuid, now: real)
      modifies this`emoji, canvas`subviews
      ensures old(emoji) != null ==> emoji == old(emoji)
      ensures old(emoji) == null ==>
        && fresh(emoji) && emoji.id == newId && emoji.name == "New Emoji" && emoji.elements == []
        && !emoji.isAnimated && emoji.animationDuration == 1.0 && emoji.createdDate == now
      ensures canvas.subviews == Scene()
    {
      if emoji == null {
        emoji := new Emoji(newId, now);
      }
      RenderEmoji();
    }

    /** `renderEmoji`: clears the canvas, then adds a view per renderable element in paint order. */
    method RenderEmoji()
      modifies canvas`subviews
      ensures canvas.subviews == Scene()
    {
      canvas.subviews := [];
      if emoji == null {
        return;
      }
      var sorted := PaintOrder(emoji.elements);
      var i := 0;
      while i < |sorted|
        invariant 0 <= i <= |sorted|
        invariant canvas.subviews == ViewsFor(sorted[..i], selectedElement, decodes)
      {
        assert sorted[..i + 1][..i] == sorted[..i];
        var view := ViewFor(sorted[i], selectedElement, decodes);
        if view.Some? {
          canvas.subviews := canvas.subviews + [view.value];
        }
        i := i + 1;
      }
      assert sorted[..i] == sorted;
    }

    /** `selectElement(_:)`: replaces any previous selection with a copy of `element`. */
    method SelectElement(element: EmojiElement)
      modifies this`selectedElement, canvas`subviews
      ensures selectedElement == Some(element)
      ensures canvas.subviews == Scene()
    {
      selectedElement := Some(element);
      RenderEmoji();
    }

    /** `deselectElement()` */
    method DeselectElement()
      modifies this`selectedElement, canvas`subviews
      ensures selectedElement == None
      ensures canvas.subviews == Scene()
    {
      selectedElement := None;
      RenderEmoji();
    }

    /** `handleTap(_:)`, with hit-testing given as the tags under the tap, topmost first. */
    method HandleTap(hits: seq<Uuid>)
      modifies this`selectedElement, canvas`subviews
      ensures selectedElement == TapTarget(hits, Document())
      ensures canvas.subviews == Scene()
    {
      var i := 0;
      while i < |hits|
        invariant 0 <= i <= |hits|
        invariant TapTarget(hits, Document()) == TapTarget(hits[i..], Document())
      {
        assert hits[i..][1..] == hits[i + 1..];
        if emoji != null {
          var k := IndexOfId(emoji.elements, hits[i]);
          if k.Some? {
            SelectElement(emoji.elements[k.value]);
            return;
          }
        }
        i := i + 1;
      }
      DeselectElement();
    }

    /** The write-back each handler ends with: `emoji?.elements[index]` gets the new value, then `renderEmoji()`. */
    method WriteBack(index: nat, element: EmojiElement)
      requires emoji != null && index < |emoji.elements| && element.id == emoji.elements[index].id
      modifies Loaded()`elements, canvas`subviews
      ensures Document() == old(Document()[index := element])
      ensures SelectedIndex() == old(SelectedIndex())
      ensures canvas.subviews == Scene()
    {
      if selectedElement.Some? {
        IndexOfIdUpdate(emoji.elements, index, element, selectedElement.value.id);
      }
      emoji.elements := emoji.elements[index := element];
      RenderEmoji();
    }

    /** `handlePan(_:)`: `.began` takes the baseline from the selection snapshot; `.changed` writes baseline + translation. */
    method HandlePan(state: GestureState, location: Point, translation: Point)
      modifies this`initialElementPosition, this`initialPanPosition, Loaded()`elements, canvas`subviews
      ensures SelectedIndex() == old(SelectedIndex())
      ensures old(SelectedIndex()).None? || !(state.Began? || state.Changed?) ==>
        && initialElementPosition == old(initialElementPosition) && initialPanPosition == old(initialPanPosition)
        && Document() == old(Document()) && canvas.subviews == old(canvas.subviews)
      ensures old(SelectedIndex()).Some? && state.Began? ==>
        && initialElementPosition == old(selectedElement.value.position) && initialPanPosition == location
        && Document() == old(Document()) && canvas.subviews == old(canvas.subviews)
      ensures old(SelectedIndex()).Some? && state.Changed? ==>
        var i := old(SelectedIndex()).value;
        && initialElementPosition == old(initialElementPosition) && initialPanPosition == old(initialPanPosition)
        && Document() == old(Document()[i := Document()[i].(position := Plus(initialElementPosition, translation))])
        && canvas.subviews == Scene()
    {
      var index := SelectedIndex();
      if index.None? {
        return;
      }
      if state.Began? {
        initialElementPosition := selectedElement.value.position;
        initialPanPosition := location;
      } else if state.Changed? {
        var newPosition := Point(initialElementPosition.x + translation.x, initialElementPosition.y + translation.y);
        WriteBack(index.value, emoji.elements[index.value].(position := newPosition));
      }
    }

    /** `handlePinch(_:)`: `.began` takes the baseline scale from the snapshot; `.changed` writes baseline * gesture scale. */
    method HandlePinch(state: GestureState, gestureScale: real)
      modifies this`initialPinchScale, Loaded()`elements, canvas`subviews
      ensures SelectedIndex() == old(SelectedIndex())
      ensures old(SelectedIndex()).None? || !(state.Began? || state.Changed?) ==>
        initialPinchScale == old(initialPinchScale) && Document() == old(Document()) && canvas.subviews == old(canvas.subviews)
      ensures old(SelectedIndex()).Some? && state.Began? ==>
        initialPinchScale == old(selectedElement.value.scale) && Document() == old(Document()) && canvas.subviews == old(canvas.subviews)
      ensures old(SelectedIndex()).Some? && state.Changed? ==>
        var i := old(SelectedIndex()).value;
        && initialPinchScale == old(initialPinchScale)
        && Document() == old(Document()[i := Document()[i].(scale := PinchedScale(initialPinchScale, gestureScale))])
        && canvas.subviews == Scene()
    {
      var index := SelectedIndex();
      if index.None? {
        return;
      }
      match state {
        case Began =>
          initialPinchScale := selectedElement.value.scale;
        case Changed =>
          var newScale := PinchedScale(initialPinchScale, gestureScale);
          WriteBack(index.value, emoji.elements[index.value].(scale := newScale));
        case _ =>
      }
    }

    /** `handleRotation(_:)`: `.began` takes the baseline angle from the snapshot; `.changed` writes baseline + gesture rotation. */
    method HandleRotation(state: GestureState, gestureRotation: real)
      modifies this`initialRotation, Loaded()`elements, canvas`subviews
      ensures SelectedIndex() == old(SelectedIndex())
      ensures old(SelectedIndex()).None? || !(state.Began? || state.Changed?) ==>
        initialRotation == old(initialRotation) && Document() == old(Document()) && canvas.subviews == old(canvas.subviews)
      ensures old(SelectedIndex()).Some? && state.Began? ==>
        initialRotation == old(selectedElement.value.rotation) && Document() == old(Document()) && canvas.subviews == old(canvas.subviews)
      ensures old(SelectedIndex()).Some? && state.Changed? ==>
        var i := old(SelectedIndex()).value;
        && initialRotation == old(initialRotation)
        && Document() == old(Document()[i := Document()[i].(rotation := initialRotation + gestureRotation)])
        && canvas.subviews == Scene()
    {
      var index := SelectedIndex();
      if index.None? {
        return;
      }
      match state {
        case Began =>
          initialRotation := selectedElement.value.rotation;
        case Changed =>
          var newRotation := initialRotation + gestureRotation;
          WriteBack(index.value, emoji.elements[index.value].(rotation := newRotation));
        case _ =>
      }
    }

    /**
     * `didSelectFont(_:)`: sets the font of the selected element, provided it is in the
     * document and the selection snapshot has text.
     */
    method DidSelectFont(fontName: string)
      modifies Loaded()`elements, canvas`subviews
      ensures old(SelectedIndex()).None? || selectedElement.value.text.None? ==>
        Document() == old(Document()) && canvas.subviews == old(canvas.subviews)
      ensures old(SelectedIndex()).Some? && selectedElement.value.text.Some? ==>
        var i := old(SelectedIndex()).value;
        && Document() == old(Document()[i := Document()[i].(font := Some(fontName))])
        && canvas.subviews == Scene()
    {
      if selectedElement.None? || emoji == null {
        return;
      }
      var index := IndexOfId(emoji.elements, selectedElement.value.id);
      if index.None? || selectedElement.value.text.None? {
        return;
      }
      WriteBack(index.value, emoji.elements[index.value].(font := Some(fontName)));
    }

    /** `animateButtonTapped`: toggles the document's animation flag and retitles the button. */
    method AnimateButtonTapped()
      modifies Loaded()`isAnimated, this`animateButtonTitle
      ensures emoji != null ==> emoji.isAnimated == !old(emoji.isAnimated)
      ensures animateButtonTitle == if emoji != null && emoji.isAnimated then "Stop Animation" else "Animate"
    {
      if emoji != null {
        emoji.isAnimated := !emoji.isAnimated;
      }
      if emoji != null && emoji.isAnimated {
        animateButtonTitle := "Stop Animation";
      } else {
        animateButtonTitle := "Animate";
      }
    }

    /**
     * The "Add" action of `addTextButtonTapped`: a non-empty text becomes a new element
     * at the canvas center, which is added and selected.
     */
    method AddText(text: Option<string>, newId: Uuid)
      modifies Loaded()`elements, this`selectedElement, canvas`subviews
      ensures text.None? || text.value == "" ==>
        selectedElement == old(selectedElement) && Document() == old(Document()) && canvas.subviews == old(canvas.subviews)
      ensures text.Some? && text.value != "" ==>
        var e := NewElement(newId, text := text, position := Point(canvas.width / 2.0, canvas.height / 2.0));
        && Document() == (if emoji == null then [] else old(Document()) + [e])
        && selectedElement == Some(e)
        && canvas.subviews == Scene()
    {
      if text.None? || text.value == "" {
        return;
      }
      var centerPoint := Point(canvas.width / 2.0, canvas.height / 2.0);
      var element := NewElement(newId, text := text, position := centerPoint);
      if emoji != null {
        emoji.AddElement(element);
      }
      RenderEmoji();
      SelectElement(element);
    }

    /** `imagePickerController(_:didFinishPickingMediaWithInfo:)`, given the picked image's PNG data. */
    method AddImage(pngData: Option<Bytes>, newId: Uuid)
      modifies Loaded()`elements, this`selectedElement, canvas`subviews
      ensures pngData.None? ==>
        selectedElement == old(selectedElement) && Document() == old(Document()) && canvas.subviews == old(canvas.subviews)
      ensures pngData.Some? ==>
        var e := NewElement(newId, imageData := pngData, position := Point(canvas.width / 2.0, canvas.height / 2.0));
        && Document() == (if emoji == null then [] else old(Document()) + [e])
        && selectedElement == Some(e)
        && canvas.subviews == Scene()
    {
      if pngData.None? {
        return;
      }
      var centerPoint := Point(canvas.width / 2.0, canvas.height / 2.0);
      var element := NewElement(newId, imageData := pngData, position := centerPoint);
      if emoji != null {
        emoji.AddElement(element);
      }
      RenderEmoji();
      SelectElement(element);
    }
  }

  // ---------------------------------------------------------------- scenarios

  /**
   * Two pans in a row on the selected element: the second pan's baseline is the
   * position in the selection snapshot, not where the first pan left the element.
   */
  method PanTwice(editor: EmojiEditorViewController, location: Point, t1: Point, t2: Point)
    returns (afterFirst: Point, afterSecond: Point)
    requires editor.SelectedIndex().Some?
    modifies editor`initialElementPosition, editor`initialPanPosition, editor.Loaded()`elements, editor.canvas`subviews
    ensures afterFirst == Plus(editor.selectedElement.value.position, t1)
    ensures afterSecond == Plus(editor.selectedElement.value.position, t2)
  {
    var i := editor.SelectedIndex().value;
    editor.HandlePan(Began, location, Zero);
    editor.HandlePan(Changed, location, t1);
    afterFirst := editor.emoji.elements[i].position;
    editor.HandlePan(Ended, location, t1);
    editor.HandlePan(Began, location, Zero);
    editor.HandlePan(Changed, location, t2);
    afterSecond := editor.emoji.elements[i].position;
  }

  /**
   * A pinch reporting 2.0 and then 0.5 leaves the selected element at twice and then
   * at half its snapshot scale, not at the product: every update is relative to the
   * same baseline.
   */
  method PinchTwice(editor: EmojiEditorViewController) returns (afterDouble: real, afterHalf: real)
    requires editor.SelectedIndex().Some?
    modifies editor`initialPinchScale, editor.Loaded()`elements, editor.canvas`subviews
    ensures afterDouble == PinchedScale(editor.selectedElement.value.scale, 2.0)
    ensures afterHalf == PinchedScale(editor.selectedElement.value.scale, 0.5)
  {
    var i := editor.SelectedIndex().value;
    ghost var baseline := editor.selectedElement.value.scale;
    editor.HandlePinch(Began, 1.0);
    assert editor.initialPinchScale == baseline;
    editor.HandlePinch(Changed, 2.0);
    afterDouble := editor.emoji.elements[i].scale;
    assert editor.initialPinchScale == baseline && editor.SelectedIndex() == Some(i);
    editor.HandlePinch(Changed, 0.5);
    afterHalf := editor.emoji.elements[i].scale;
  }

  /** Rotation updates, like pinches, are recomputed from the baseline rather than accumulated. */
  method RotateTwice(editor: EmojiEditorViewController, r1: real, r2: real)
    returns (afterFirst: real, afterSecond: real)
    requires editor.SelectedIndex().Some?
    modifies editor`initialRotation, editor.Loaded()`elements, editor.canvas`subviews
    ensures afterFirst == editor.selectedElement.value.rotation + r1
    ensures afterSecond == editor.selectedElement.value.rotation + r2
  {
    var i := editor.SelectedIndex().value;
    editor.HandleRotation(Began, 0.0);
    editor.HandleRotation(Changed, r1);
    afterFirst := editor.emoji.elements[i].rotation;
    editor.HandleRotation(Changed, r2);
    afterSecond := editor.emoji.elements[i].rotation;
  }
}
