/**
 * The canvas the editor draws into and the animation manager animates: an
 * ordered list of element views, each tagged with its element's id.
 * Views are kept as values; the canvas is the one object that changes.
 */
module Views {
  import opened Wrappers
  import opened Collections
  import opened Geometry
  import opened TransformMath
  import opened EmojiModel

  /** What a view shows: a `UIImageView` over decoded image data, or a `UILabel`. */
  datatype ViewContent =
    | ImageView(data: Bytes)
    | Label(text: string, font: string, fontSize: real)

  /** An animation running on a view's layer. */
  datatype LayerAnimation =
    /** `UIView.animate(withDuration:delay:options:animations:)` */
    | PropertyAnimation(duration: real, autoreverses: bool, linear: bool, repeats: bool)
    /** `CAKeyframeAnimation` added with `layer.add(_:forKey:)` */
    | KeyframeAnimation(keyPath: string, duration: real, values: seq<real>, linear: bool,
                        repeatsForever: bool, key: string)

  datatype ElementView = ElementView(
    tag: Uuid,
    content: ViewContent,
    center: Point,
    transform: Transform,
    bordered: bool,
    animations: seq<LayerAnimation>)

  /** The canvas `UIView`: its subviews in paint order (later ones are drawn on top) and its size. */
  class CanvasView {
    var subviews: seq<ElementView>
    var width: real
    var height: real

    constructor (width: real, height: real)
      ensures subviews == [] && this.width == width && this.height == height
    {
      subviews := [];
      this.width := width;
      this.height := height;
    }
  }

  function Tags(vs: seq<ElementView>): (tags: seq<Uuid>)
    ensures |tags| == |vs| && forall i :: 0 <= i < |vs| ==> tags[i] == vs[i].tag
  {
    seq(|vs|, i requires 0 <= i < |vs| => vs[i].tag)
  }

  /** `canvasView.viewWithTag(tag)`: the first subview carrying the tag. */
  function ViewWithTag(vs: seq<ElementView>, tag: Uuid): (r: Option<nat>)
    ensures r.Some? ==> r.value < |vs| && vs[r.value].tag == tag
    ensures r.Some? ==> forall j :: 0 <= j < r.value ==> vs[j].tag != tag
    ensures r.None? <==> forall j :: 0 <= j < |vs| ==> vs[j].tag != tag
  {
    var r := FirstIndex(Tags(vs), tag);
    assert r.None? ==> forall j :: 0 <= j < |vs| ==> Tags(vs)[j] != tag;
    r
  }

  /** The canonical transform of an element: scale (mirrored when flipped), then rotation. */
  function ElementTransform(e: EmojiElement): Transform
  {
    Canonical(e.scale, e.isFlipped, e.rotation)
  }

  /**
   * `configureElementView(_:with:)`: the tag, the center at the element's position,
   * the canonical transform, and a border when the selection snapshot has the same id.
   */
  function ConfigureElementView(e: EmojiElement, content: ViewContent, selection: Option<EmojiElement>): (r: ElementView)
    ensures r.tag == e.id && r.content == content && r.center == e.position && r.animations == []
    ensures r.transform == Canonical(e.scale, e.isFlipped, e.rotation)
    ensures r.bordered <==> selection.Some? && selection.value.id == e.id
  {
    ElementView(e.id, content, e.position, ElementTransform(e),
                selection.Some? && selection.value.id == e.id, [])
  }
}
