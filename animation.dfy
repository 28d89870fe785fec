/**
 * `AnimationManager`: the start/stop flag, the per-tick waveform chosen by an
 * element's place in the list, the reset of every element view to the editor's
 * canonical transform, and the export branching.
 *
 * A tick and a reset are both one pass over the document's elements that looks
 * each element's view up by tag and rewrites it; the two passes share one
 * definition (`Sweep`) and one effect lemma (`SweepAt`).
 */
module Animation {
  import opened Wrappers
  import opened Geometry
  import opened TransformMath
  import opened EmojiModel
  import opened Views
  import opened Editor

  // ---------------------------------------------------------------- waveforms

  /** The four effects of `animationTick`, in the order of `index % 4`. */
  datatype Waveform = Bounce | Rotate | Pulse | Shake

  /** The position of a waveform in the cycle bounce, rotate, pulse, shake. */
  function WaveformCode(w: Waveform): nat
  {
    match w
    case Bounce => 0
    case Rotate => 1
    case Pulse => 2
    case Shake => 3
  }

  /** The waveform of the element at list position `index`: its position modulo 4, never its id. */
  function WaveformAt(index: nat): (w: Waveform)
    ensures WaveformCode(w) == index % 4
  {
    match index % 4
    case 0 => Bounce
    case 1 => Rotate
    case 2 => Pulse
    case _ => Shake
  }

  /** Elements four places apart get the same waveform; neighbours never do. */
  lemma WaveformCycle(index: nat)
    ensures WaveformAt(index + 4) == WaveformAt(index)
    ensures WaveformAt(index + 1) != WaveformAt(index)
  {
  }

  /** Bounce: `translatedBy(x: 0, y: -10)`. */
  const BounceOffset: real := -10.0
  /** Rotate: `rotated(by: .pi / 8)`, kept as a multiple of pi. */
  const RotateTurns: real := 0.125
  /** Pulse: `scaledBy(x: 1.1, y: 1.1)`. */
  const PulseFactor: real := 1.1
  /** Shake: the horizontal keyframes, dying out and ending at rest. */
  const ShakeValues: seq<real> := [-5.0, 5.0, -5.0, 5.0, -2.5, 2.5, -1.0, 1.0, 0.0]
  /** The layer key the shake animation is added under. */
  const ShakeKey: string := "shake"
  /** `Timer.scheduledTimer(timeInterval: 0.05, ...)` */
  const TickInterval: real := 0.05

  /** The transform step each waveform appends to the view's transform. */
  function Motion(w: Waveform): Transform
  {
    match w
    case Bounce => [TranslateBy(0.0, BounceOffset)]
    case Rotate => [RotateByPiTimes(RotateTurns)]
    case Pulse => [ScaleBy(PulseFactor, PulseFactor)]
    case Shake => []
  }

  /** The layer animation each waveform starts. */
  function WaveAnimation(w: Waveform): LayerAnimation
  {
    match w
    case Bounce => PropertyAnimation(0.5, true, false, true)
    case Rotate => PropertyAnimation(1.0, false, true, true)
    case Pulse => PropertyAnimation(0.5, true, false, true)
    case Shake => KeyframeAnimation("transform.translation.x", 0.6, ShakeValues, true, true, ShakeKey)
  }

  /** Whether an animation sits on the layer under `key`. */
  predicate HasKey(a: LayerAnimation, key: string)
  {
    a.KeyframeAnimation? && a.key == key
  }

  /** The layer's animations once the one under `key` is dropped (what `add(_:forKey:)` replaces). */
  function WithoutKey(anims: seq<LayerAnimation>, key: string): (r: seq<LayerAnimation>)
    ensures forall a :: a in r <==> a in anims && !HasKey(a, key)
    ensures |r| <= |anims|
  {
    if anims == [] then []
    else if HasKey(anims[0], key) then WithoutKey(anims[1..], key)
    else [anims[0]] + WithoutKey(anims[1..], key)
  }

  lemma {:induction false} WithoutKeyAppend(a: seq<LayerAnimation>, b: seq<LayerAnimation>, key: string)
    ensures WithoutKey(a + b, key) == WithoutKey(a, key) + WithoutKey(b, key)
  {
    if a != [] {
      assert (a + b)[0] == a[0] && (a + b)[1..] == a[1..] + b;
      WithoutKeyAppend(a[1..], b, key);
      if !HasKey(a[0], key) {
        assert WithoutKey(a, key) == [a[0]] + WithoutKey(a[1..], key);
      }
    } else {
      assert a + b == b;
    }
  }

  lemma {:induction false} WithoutKeyIdempotent(a: seq<LayerAnimation>, key: string)
    ensures WithoutKey(WithoutKey(a, key), key) == WithoutKey(a, key)
  {
    if a != [] {
      WithoutKeyIdempotent(a[1..], key);
      if !HasKey(a[0], key) {
        var r := WithoutKey(a[1..], key);
        assert ([a[0]] + r)[1..] == r;
      }
    }
  }

  /**
   * One waveform applied to a view: the three `UIView.animate` waveforms move the
   * view's model transform one step further and start a repeating animation; the
   * shake adds its keyframe animation under "shake", replacing one already there.
   */
  function ApplyWaveform(v: ElementView, w: Waveform): (r: ElementView)
    ensures r.tag == v.tag && r.content == v.content && r.center == v.center && r.bordered == v.bordered
    ensures r.transform == v.transform + Motion(w)
    ensures w != Shake ==> r.animations == v.animations + [WaveAnimation(w)]
    ensures w == Shake ==> r.animations == WithoutKey(v.animations, ShakeKey) + [WaveAnimation(w)]
  {
    match w
    case Shake => v.(animations := WithoutKey(v.animations, ShakeKey) + [WaveAnimation(w)])
    case _ => v.(transform := v.transform + Motion(w), animations := v.animations + [WaveAnimation(w)])
  }

  /** Shaking again does not stack a second shake: `add(_:forKey:)` replaces the animation under the key. */
  lemma ShakeTwiceIsShakeOnce(v: ElementView)
    ensures ApplyWaveform(ApplyWaveform(v, Shake), Shake) == ApplyWaveform(v, Shake)
  {
    var once := WithoutKey(v.animations, ShakeKey);
    WithoutKeyAppend(once, [WaveAnimation(Shake)], ShakeKey);
    WithoutKeyIdempotent(v.animations, ShakeKey);
    assert WithoutKey([WaveAnimation(Shake)], ShakeKey) == [];
  }

  /**
   * `resetElements` for one element: all layer animations removed, the transform
   * rebuilt from identity by a scale (mirrored when flipped) and a rotation, and the
   * center put back at the element's position.
   */
  function Restore(v: ElementView, e: EmojiElement): (r: ElementView)
    ensures r.tag == v.tag && r.content == v.content && r.bordered == v.bordered
    ensures r.center == e.position && r.animations == []
  {
    var transform := Identity + [ScaleBy(e.scale * (if e.isFlipped then -1.0 else 1.0), e.scale)];
    v.(transform := transform + [RotateBy(e.rotation)], center := e.position, animations := [])
  }

  /** A restored view is the view the editor would configure for the element. */
  lemma RestoreMatchesEditor(v: ElementView, e: EmojiElement, selection: Option<EmojiElement>)
    requires v.tag == e.id
    requires v.bordered == (selection.Some? && selection.value.id == e.id)
    ensures Restore(v, e) == ConfigureElementView(e, v.content, selection)
  {
  }

  /** Whatever waveforms ran on a view, restoring it gives the same view. */
  lemma RestoreForgetsWaveform(v: ElementView, w: Waveform, e: EmojiElement)
    ensures Restore(ApplyWaveform(v, w), e) == Restore(v, e)
  {
  }

  // ---------------------------------------------------------------- passes over the elements

  /** The two loops over `emoji.elements` that look views up by tag. */
  datatype Pass = TickPass | ResetPass

  /** What a pass does to the view of the element at list position `index`. */
  function Visit(p: Pass, index: nat, e: EmojiElement, v: ElementView): (r: ElementView)
    ensures r.tag == v.tag
  {
    match p
    case TickPass => ApplyWaveform(v, WaveformAt(index))
    case ResetPass => Restore(v, e)
  }

  /** One iteration: the view tagged with the element's id, if any, is visited; otherwise `continue`. */
  function VisitTagged(p: Pass, vs: seq<ElementView>, index: nat, e: EmojiElement): (r: seq<ElementView>)
    ensures |r| == |vs| && Tags(r) == Tags(vs)
    ensures ViewWithTag(vs, e.id).None? ==> r == vs
    ensures ViewWithTag(vs, e.id).Some? ==> r[ViewWithTag(vs, e.id).value] == Visit(p, index, e, vs[ViewWithTag(vs, e.id).value])
    ensures forall m :: 0 <= m < |vs| && ViewWithTag(vs, e.id) != Some(m) ==> r[m] == vs[m]
  {
    match ViewWithTag(vs, e.id)
    case None => vs
    case Some(j) => vs[j := Visit(p, index, e, vs[j])]
  }

  /** The views after a pass over `es`: the pass over all but the last element, then the last one. */
  function Sweep(p: Pass, vs: seq<ElementView>, es: seq<EmojiElement>): (r: seq<ElementView>)
    ensures |r| == |vs| && Tags(r) == Tags(vs)
  {
    if es == [] then vs
    else VisitTagged(p, Sweep(p, vs, es[..|es| - 1]), |es| - 1, es[|es| - 1])
  }

  /** The view at `j` is the one a pass visits: the first view with its tag, naming some element. */
  predicate Visited(vs: seq<ElementView>, es: seq<EmojiElement>, j: nat)
    requires j < |vs|
  {
    ViewWithTag(vs, vs[j].tag) == Some(j) && IndexOfId(es, vs[j].tag).Some?
  }

  /** Views with the same tags are looked up alike. */
  lemma SameTagsSameLookup(vs: seq<ElementView>, ws: seq<ElementView>, tag: Uuid)
    requires Tags(vs) == Tags(ws)
    ensures ViewWithTag(vs, tag) == ViewWithTag(ws, tag)
  {
  }

  /**
   * The effect of a whole pass, view by view: when element ids are unique, the
   * first view carrying an element's id is visited once, with that element and its
   * list position; every other view is left as it was.
   */
  lemma {:induction false} SweepAt(p: Pass, vs: seq<ElementView>, es: seq<EmojiElement>, j: nat)
    requires UniqueIds(es) && j < |vs|
    ensures Sweep(p, vs, es)[j] ==
      if Visited(vs, es, j)
      then Visit(p, IndexOfId(es, vs[j].tag).value, es[IndexOfId(es, vs[j].tag).value], vs[j])
      else vs[j]
  {
    if es != [] {
      var tag := vs[j].tag;
      var init, e := es[..|es| - 1], es[|es| - 1];
      assert es == init + [e];
      assert UniqueIds(init) by {
        forall a, b | 0 <= a < b < |init| ensures init[a].id != init[b].id {
          assert init[a] == es[a] && init[b] == es[b];
        }
      }
      var prev := Sweep(p, vs, init);
      SweepAt(p, vs, init, j);
      assert Sweep(p, vs, es)[j] == if ViewWithTag(prev, e.id) == Some(j) then Visit(p, |init|, e, prev[j]) else prev[j];
      SameTagsSameLookup(prev, vs, e.id);
      IndexOfIdSnoc(init, e, tag);
      if e.id == tag && IndexOfId(init, tag).Some? {
        assert false;
      }
    }
  }

  /**
   * A tick, view by view: the element at list position k gets waveform k mod 4 on
   * its view; views of no element are untouched.
   */
  lemma TickAt(vs: seq<ElementView>, es: seq<EmojiElement>, k: nat)
    requires UniqueIds(es) && k < |es|
    ensures ViewWithTag(vs, es[k].id).Some? ==>
      var j := ViewWithTag(vs, es[k].id).value;
      Sweep(TickPass, vs, es)[j] == ApplyWaveform(vs[j], WaveformAt(k))
  {
    if ViewWithTag(vs, es[k].id).Some? {
      var j := ViewWithTag(vs, es[k].id).value;
      SweepAt(TickPass, vs, es, j);
      var i := IndexOfId(es, es[k].id).value;
      assert es[i].id == es[k].id;
    }
  }

  /** The tick repeated `n` times, as the repeating timer does. */
  function Ticks(vs: seq<ElementView>, es: seq<EmojiElement>, n: nat): (r: seq<ElementView>)
    ensures |r| == |vs| && Tags(r) == Tags(vs)
  {
    if n == 0 then vs else Sweep(TickPass, Ticks(vs, es, n - 1), es)
  }

  /** Stopping after one tick gives what stopping before it gives. */
  lemma ResetAfterTick(vs: seq<ElementView>, es: seq<EmojiElement>)
    requires UniqueIds(es)
    ensures Sweep(ResetPass, Sweep(TickPass, vs, es), es) == Sweep(ResetPass, vs, es)
  {
    var ticked := Sweep(TickPass, vs, es);
    var a, b := Sweep(ResetPass, ticked, es), Sweep(ResetPass, vs, es);
    forall j | 0 <= j < |vs|
      ensures a[j] == b[j]
    {
      SweepAt(TickPass, vs, es, j);
      SweepAt(ResetPass, ticked, es, j);
      SweepAt(ResetPass, vs, es, j);
      assert ticked[j].tag == vs[j].tag;
      SameTagsSameLookup(ticked, vs, vs[j].tag);
    }
  }

  /**
   * `stopAnimation` undoes any number of ticks: the views after the reset do not
   * depend on how long the animation ran.
   */
  lemma {:induction false} ResetAfterTicks(vs: seq<ElementView>, es: seq<EmojiElement>, n: nat)
    requires UniqueIds(es)
    ensures Sweep(ResetPass, Ticks(vs, es, n), es) == Sweep(ResetPass, vs, es)
  {
    if n > 0 {
      var prev := Ticks(vs, es, n - 1);
      assert Ticks(vs, es, n) == Sweep(TickPass, prev, es);
      ResetAfterTick(prev, es);
      ResetAfterTicks(vs, es, n - 1);
    }
  }

  /** Resetting twice is resetting once. */
  lemma ResetIdempotent(vs: seq<ElementView>, es: seq<EmojiElement>)
    requires UniqueIds(es)
    ensures Sweep(ResetPass, Sweep(ResetPass, vs, es), es) == Sweep(ResetPass, vs, es)
  {
    var once := Sweep(ResetPass, vs, es);
    forall j | 0 <= j < |vs|
      ensures Sweep(ResetPass, once, es)[j] == once[j]
    {
      SweepAt(ResetPass, vs, es, j);
      SweepAt(ResetPass, once, es, j);
      SameTagsSameLookup(once, vs, vs[j].tag);
    }
  }

  /** A view already centered at its element's position, with its transform and no animations, is at rest. */
  lemma RestoreAtRest(v: ElementView, e: EmojiElement)
    requires v.center == e.position && v.transform == ElementTransform(e) && v.animations == []
    ensures Restore(v, e) == v
  {
    assert Restore(v, e).transform == ElementTransform(e);
  }

  /** With unique ids, looking up a member's id finds that member. */
  lemma LookupFindsMember(es: seq<EmojiElement>, e: EmojiElement)
    requires UniqueIds(es) && e in es
    ensures IndexOfId(es, e.id).Some? && es[IndexOfId(es, e.id).value] == e
  {
    var i :| 0 <= i < |es| && es[i] == e;
  }

  /** A view the editor rendered is at rest for the element its tag names. */
  lemma RenderedViewAtRest(es: seq<EmojiElement>, selection: Option<EmojiElement>, decodes: Bytes -> bool,
                           v: ElementView, k: nat)
    requires UniqueIds(es) && v in Rendered(es, selection, decodes)
    requires IndexOfId(es, v.tag) == Some(k)
    ensures Restore(v, es[k]) == v
  {
    RenderedViews(es, selection, decodes, v);
    var e :| e in es && v.tag == e.id && v.center == e.position
           && v.transform == ElementTransform(e) && v.animations == [];
    LookupFindsMember(es, e);
    RestoreAtRest(v, e);
  }

  /** The canvas as the editor renders it is already at rest: a reset changes nothing. */
  lemma ResetRenderedIsNoop(es: seq<EmojiElement>, selection: Option<EmojiElement>, decodes: Bytes -> bool)
    requires UniqueIds(es)
    ensures Sweep(ResetPass, Rendered(es, selection, decodes), es) == Rendered(es, selection, decodes)
  {
    var vs := Rendered(es, selection, decodes);
    forall j | 0 <= j < |vs|
      ensures Sweep(ResetPass, vs, es)[j] == vs[j]
    {
      SweepAt(ResetPass, vs, es, j);
      if Visited(vs, es, j) {
        RenderedViewAtRest(es, selection, decodes, vs[j], IndexOfId(es, vs[j].tag).value);
      }
    }
  }

  /** Animating the editor's canvas for any number of ticks and stopping gives the editor's canvas back. */
  lemma StopRestoresEditorCanvas(es: seq<EmojiElement>, selection: Option<EmojiElement>, decodes: Bytes -> bool, n: nat)
    requires UniqueIds(es)
    ensures Sweep(ResetPass, Ticks(Rendered(es, selection, decodes), es, n), es) == Rendered(es, selection, decodes)
  {
    ResetAfterTicks(Rendered(es, selection, decodes), es, n);
    ResetRenderedIsNoop(es, selection, decodes);
  }

  // ---------------------------------------------------------------- the manager

  /** A scheduled `Timer`: its interval and whether it repeats. */
  datatype Timer = Timer(interval: real, repeats: bool)

  /** A `UIImage` rendered from the canvas layer: its size and what was drawn. */
  datatype Image = Image(width: real, height: real, views: seq<ElementView>)

  class AnimationManager {
    /** `weak var canvasView`: may be gone. */
    var canvas: CanvasView?
    var emoji: Emoji?
    var isAnimating: bool
    var animationTimer: Option<Timer>

    /** `init(canvasView:)` */
    constructor (canvas: CanvasView)
      ensures this.canvas == canvas && emoji == null && !isAnimating && animationTimer.None?
    {
      this.canvas := canvas;
      emoji := null;
      isAnimating := false;
      animationTimer := None;
    }

    /** The canvas, when it is still there, as a frame. */
    function Canvases(): set<CanvasView>
      reads this
    {
      if canvas == null then {} else {canvas}
    }

    /** `setEmoji(_:)` */
    method SetEmoji(e: Emoji)
      modifies this`emoji
      ensures emoji == e
    {
      emoji := e;
    }

    /** `startAnimation`: only an animated document that is not already animating starts the timer. */
    method StartAnimation()
      modifies this`isAnimating, this`animationTimer
      ensures old(emoji != null && emoji.isAnimated && !isAnimating) ==>
        isAnimating && animationTimer == Some(Timer(TickInterval, true))
      ensures !old(emoji != null && emoji.isAnimated && !isAnimating) ==>
        isAnimating == old(isAnimating) && animationTimer == old(animationTimer)
    {
      if emoji == null || !emoji.isAnimated || isAnimating {
        return;
      }
      isAnimating := true;
      animationTimer := Some(Timer(TickInterval, true));
    }

    /** `stopAnimation`: always ends stopped with no timer, then resets the element views. */
    method StopAnimation()
      modifies this`isAnimating, this`animationTimer, Canvases()`subviews
      ensures !isAnimating && animationTimer.None?
      ensures canvas != null && emoji != null ==>
        canvas.subviews == Sweep(ResetPass, old(canvas.subviews), emoji.elements)
      ensures canvas != null && emoji == null ==> canvas.subviews == old(canvas.subviews)
    {
      isAnimating := false;
      animationTimer := None;
      ResetElements();
    }

    /** `isCurrentlyAnimating()` */
    method IsCurrentlyAnimating() returns (r: bool)
      ensures r == isAnimating
    {
      r := isAnimating;
    }

    /** `animationTick`: each element's view, looked up by tag, gets the waveform of the element's list position. */
    method AnimationTick()
      modifies Canvases()`subviews
      ensures canvas != null && emoji != null ==>
        canvas.subviews == Sweep(TickPass, old(canvas.subviews), emoji.elements)
      ensures canvas != null && emoji == null ==> canvas.subviews == old(canvas.subviews)
    {
      if emoji == null || canvas == null {
        return;
      }
      var canvasView, elements := canvas, emoji.elements;
      ghost var before := canvasView.subviews;
      var index := 0;
      while index < |elements|
        invariant 0 <= index <= |elements|
        invariant canvasView.subviews == Sweep(TickPass, before, elements[..index])
      {
        assert elements[..index + 1] == elements[..index] + [elements[index]];
        var j := ViewWithTag(canvasView.subviews, elements[index].id);
        if j.Some? {
          canvasView.subviews := canvasView.subviews[j.value := ApplyWaveform(canvasView.subviews[j.value], WaveformAt(index))];
        }
        index := index + 1;
      }
      assert elements[..index] == elements;
    }

    /** `resetElements`: each element's view, looked up by tag, is put back at rest. */
    method ResetElements()
      modifies Canvases()`subviews
      ensures canvas != null && emoji != null ==>
        canvas.subviews == Sweep(ResetPass, old(canvas.subviews), emoji.elements)
      ensures canvas != null && emoji == null ==> canvas.subviews == old(canvas.subviews)
    {
      if emoji == null || canvas == null {
        return;
      }
      var canvasView, elements := canvas, emoji.elements;
      ghost var before := canvasView.subviews;
      var index := 0;
      while index < |elements|
        invariant 0 <= index <= |elements|
        invariant canvasView.subviews == Sweep(ResetPass, before, elements[..index])
      {
        assert elements[..index + 1] == elements[..index] + [elements[index]];
        var element := elements[index];
        var j := ViewWithTag(canvasView.subviews, element.id);
        if j.Some? {
          canvasView.subviews := canvasView.subviews[j.value := Restore(canvasView.subviews[j.value], element)];
        }
        index := index + 1;
      }
      assert elements[..index] == elements;
    }

    /**
     * `exportAnimatedEmoji(completion:)`: nothing without a document and a canvas;
     * otherwise a single render of the canvas, animated or not. `hasContext` says
     * whether a graphics context could be opened for the render.
     */
    method ExportAnimatedEmoji(hasContext: bool) returns (image: Option<Image>)
      ensures emoji == null || canvas == null || !hasContext <==> image.None?
      ensures image.Some? ==> image.value == Image(canvas.width, canvas.height, canvas.subviews)
    {
      if emoji == null || canvas == null {
        return None;
      }
      if !emoji.isAnimated {
        image := RenderToImage(hasContext);
        return;
      }
      image := RenderToImage(hasContext);
    }

    /** `renderToImage()`: the canvas drawn into an image the size of its bounds. */
    method RenderToImage(hasContext: bool) returns (image: Option<Image>)
      ensures image.Some? <==> canvas != null && hasContext
      ensures image.Some? ==> image.value == Image(canvas.width, canvas.height, canvas.subviews)
    {
      if canvas == null || !hasContext {
        return None;
      }
      image := Some(Image(canvas.width, canvas.height, canvas.subviews));
    }
  }
}
