/**
 * CGPoint and its hand-written Codable conformance: a point is coded as the
 * unkeyed two-item sequence [x, y] (Models/EmojiModel.swift:74-88).
 * CGFloat is modelled as `real`.
 */
module Geometry {
  import opened Wrappers

  datatype Point = Point(x: real, y: real)

  /** `CGPoint.zero` */
  const Zero: Point := Point(0.0, 0.0)

  /** Component-wise sum, as the editor adds a pan translation to a baseline. */
  function Plus(p: Point, q: Point): Point
  {
    Point(p.x + q.x, p.y + q.y)
  }

  /** One value of an unkeyed coding container: a number, or a value of another type (a string, a nested container). */
  datatype CodedValue = Number(n: real) | NotANumber

  /** The two ways `container.decode(CGFloat.self)` can throw. */
  datatype DecodingError =
    | ValueNotFound(index: nat)   // the container is already at its end
    | TypeMismatch(index: nat)    // the value at this position is not a number

  /** `encode(to:)`: x, then y, into one unkeyed container. */
  function EncodePoint(p: Point): (c: seq<CodedValue>)
    ensures |c| == 2
  {
    [Number(p.x), Number(p.y)]
  }

  /** One `container.decode(CGFloat.self)` at position `i`. */
  function DecodeNumber(c: seq<CodedValue>, i: nat): (r: Result<real, DecodingError>)
    ensures r.Ok? <==> i < |c| && c[i].Number?
    ensures r.Ok? ==> r.value == c[i].n
    ensures i >= |c| ==> r == Err(ValueNotFound(i))
  {
    if i >= |c| then Err(ValueNotFound(i))
    else match c[i]
      case Number(n) => Ok(n)
      case NotANumber => Err(TypeMismatch(i))
  }

  /**
   * `init(from:)`: decodes x, then y. Values after the second are not looked at,
   * since the initializer never asks whether the container is at its end.
   */
  function DecodePoint(c: seq<CodedValue>): (r: Result<Point, DecodingError>)
    ensures r.Ok? <==> |c| >= 2 && c[0].Number? && c[1].Number?
    ensures r.Ok? ==> r.value == Point(c[0].n, c[1].n)
    ensures |c| < 2 && (|c| == 0 || c[0].Number?) ==> r == Err(ValueNotFound(|c|))
  {
    match DecodeNumber(c, 0)
    case Err(e) => Err(e)
    case Ok(x) =>
      match DecodeNumber(c, 1)
      case Err(e) => Err(e)
      case Ok(y) => Ok(Point(x, y))
  }

  /** Every point survives encoding and decoding. */
  lemma PointRoundTrip(p: Point)
    ensures DecodePoint(EncodePoint(p)) == Ok(p)
  {
  }

  /** A container holding exactly two numbers is the encoding of the point it decodes to. */
  lemma PointRoundTripBack(c: seq<CodedValue>)
    requires |c| == 2 && DecodePoint(c).Ok?
    ensures EncodePoint(DecodePoint(c).value) == c
  {
  }

  /** Trailing values after [x, y] do not change the decoded point. */
  lemma DecodeIgnoresTrailing(p: Point, extra: seq<CodedValue>)
    ensures DecodePoint(EncodePoint(p) + extra) == Ok(p)
  {
  }
}

/**
 * The canonical view transform, kept symbolic (no trigonometry): a list of the
 * Core Graphics calls made on `CGAffineTransform.identity`, in call order.
 * As with Core Graphics, the last call in the list is the first to act on a point.
 */
module TransformMath {

  datatype Op =
    | ScaleBy(sx: real, sy: real)       // `scaledBy(x:y:)`
    | RotateBy(radians: real)           // `rotated(by:)`
    | RotateByPiTimes(k: real)          // `rotated(by: k * .pi)`, for the constant angles of the animations
    | TranslateBy(tx: real, ty: real)   // `translatedBy(x:y:)`

  type Transform = seq<Op>

  /** `CGAffineTransform.identity` */
  const Identity: Transform := []

  /** The horizontal factor: the scale, negated when the element is mirrored. */
  function HorizontalFactor(scale: real, isFlipped: bool): real
  {
    scale * (if isFlipped then -1.0 else 1.0)
  }

  /**
   * identity.scaledBy(x: scale * (isFlipped ? -1 : 1), y: scale).rotated(by: rotation).
   * The element's position is not an input: the center is set apart from the transform.
   */
  function Canonical(scale: real, isFlipped: bool, rotation: real): (t: Transform)
    ensures |t| == 2 && t[0].ScaleBy? && t[1] == RotateBy(rotation)
    ensures t[0].sy == scale
    ensures t[0].sx == (if isFlipped then -scale else scale)
  {
    Identity + [ScaleBy(HorizontalFactor(scale, isFlipped), scale), RotateBy(rotation)]
  }

  /** Flipping negates exactly the horizontal factor; the vertical factor and the rotation stay. */
  lemma FlipNegatesHorizontalOnly(scale: real, rotation: real)
    ensures Canonical(scale, true, rotation)[0].sx == -Canonical(scale, false, rotation)[0].sx
    ensures Canonical(scale, true, rotation)[0].sy == Canonical(scale, false, rotation)[0].sy
    ensures Canonical(scale, true, rotation)[1] == Canonical(scale, false, rotation)[1]
  {
  }

  /**
   * Equal call lists come from equal attributes. This is a fact about the symbolic call
   * list, not about the matrix it denotes: rotations r and r + 2π give the same matrix.
   */
  lemma CanonicalInjective(s1: real, f1: bool, r1: real, s2: real, f2: bool, r2: real)
    requires Canonical(s1, f1, r1) == Canonical(s2, f2, r2)
    ensures s1 == s2 && r1 == r2 && (s1 != 0.0 ==> f1 == f2)
  {
  }
}
