/**
 * The sticker document: `EmojiElement` (a value) and `Emoji` (a class whose
 * element list is changed in place) of Models/EmojiModel.swift.
 */
module EmojiModel {
  import opened Wrappers
  import opened Collections
  import opened Geometry

  /** A `UUID`; fresh ones are supplied by the caller, since `UUID()` is random. */
  datatype Uuid = Uuid(bits: nat)

  type Bytes = seq<bv8>

  const Int64Min: int := -0x8000_0000_0000_0000
  const Int64Max: int := 0x7FFF_FFFF_FFFF_FFFF

  /** Swift's `Int` on a 64-bit platform; arithmetic that leaves this range traps. */
  type Int64 = z: int | Int64Min <= z <= Int64Max

  datatype EmojiElement = EmojiElement(
    id: Uuid,
    imageData: Option<Bytes>,
    text: Option<string>,
    font: Option<string>,
    fontSize: real,
    position: Point,
    scale: real,
    rotation: real,
    zPosition: Int64,
    isFlipped: bool)

  /** The memberwise initializer with the source's default arguments. */
  function NewElement(id: Uuid, imageData: Option<Bytes> := None, text: Option<string> := None,
                      font: Option<string> := Some("Helvetica"), fontSize: real := 40.0,
                      position: Point := Zero, scale: real := 1.0, rotation: real := 0.0,
                      zPosition: Int64 := 0, isFlipped: bool := false): EmojiElement
  {
    EmojiElement(id, imageData, text, font, fontSize, position, scale, rotation, zPosition, isFlipped)
  }

  /** An element built with every default is a 40-point Helvetica element at the origin, unscaled and unrotated. */
  lemma DefaultElement(id: Uuid)
    ensures var e := NewElement(id);
      && e.id == id && e.imageData == None && e.text == None && e.font == Some("Helvetica")
      && e.fontSize == 40.0 && e.position == Zero && e.scale == 1.0 && e.rotation == 0.0
      && e.zPosition == 0 && !e.isFlipped
  {
  }

  /** The ids of a list of elements, in list order. */
  function Ids(es: seq<EmojiElement>): (ids: seq<Uuid>)
    ensures |ids| == |es| && forall i :: 0 <= i < |es| ==> ids[i] == es[i].id
  {
    seq(|es|, i requires 0 <= i < |es| => es[i].id)
  }

  /** `elements.firstIndex(where: { $0.id == id })` */
  function IndexOfId(es: seq<EmojiElement>, id: Uuid): (r: Option<nat>)
    ensures r.Some? ==> r.value < |es| && es[r.value].id == id
    ensures r.Some? ==> forall j :: 0 <= j < r.value ==> es[j].id != id
    ensures r.None? <==> forall j :: 0 <= j < |es| ==> es[j].id != id
  {
    var r := FirstIndex(Ids(es), id);
    assert r.None? ==> forall j :: 0 <= j < |es| ==> Ids(es)[j] != id;
    r
  }

  /** Rewriting one element without touching its id leaves every id lookup where it was. */
  lemma IndexOfIdUpdate(es: seq<EmojiElement>, i: nat, e: EmojiElement, id: Uuid)
    requires i < |es| && e.id == es[i].id
    ensures IndexOfId(es[i := e], id) == IndexOfId(es, id)
  {
    assert Ids(es[i := e]) == Ids(es);
  }

  /** Looking an id up in a list extended at the end finds the old match first, else the new element. */
  lemma IndexOfIdSnoc(es: seq<EmojiElement>, x: EmojiElement, id: Uuid)
    ensures IndexOfId(es + [x], id) ==
      if IndexOfId(es, id).Some? then IndexOfId(es, id) else if x.id == id then Some(|es|) else None
  {
    var r := IndexOfId(es + [x], id);
    assert forall j :: 0 <= j < |es| ==> (es + [x])[j] == es[j];
    assert (es + [x])[|es|] == x;
    if IndexOfId(es, id).Some? {
      var k := IndexOfId(es, id).value;
      assert (es + [x])[k].id == id;
    }
  }

  /**
   * Ids are unique within a document: every element the app creates gets a fresh `UUID()`,
   * though `addElement` does not check for duplicates.
   */
  predicate UniqueIds(es: seq<EmojiElement>)
  {
    forall i, j :: 0 <= i < j < |es| ==> es[i].id != es[j].id
  }

  // ---------------------------------------------------------------- z-order

  /** `elements.map { $0.zPosition }.max() ?? 0` */
  function MaxZ(es: seq<EmojiElement>): (m: Int64)
    ensures es == [] ==> m == 0
    ensures forall i :: 0 <= i < |es| ==> es[i].zPosition <= m
    ensures es != [] ==> exists i :: 0 <= i < |es| && es[i].zPosition == m
  {
    if |es| == 0 then 0
    else if |es| == 1 then es[0].zPosition
    else
      var rest := MaxZ(es[1..]);
      assert forall i :: 1 <= i < |es| ==> es[i] == es[1..][i - 1];
      if es[0].zPosition >= rest then es[0].zPosition else rest
  }

  /** `elements.map { $0.zPosition }.min() ?? 0` */
  function MinZ(es: seq<EmojiElement>): (m: Int64)
    ensures es == [] ==> m == 0
    ensures forall i :: 0 <= i < |es| ==> m <= es[i].zPosition
    ensures es != [] ==> exists i :: 0 <= i < |es| && es[i].zPosition == m
  {
    if |es| == 0 then 0
    else if |es| == 1 then es[0].zPosition
    else
      var rest := MinZ(es[1..]);
      assert forall i :: 1 <= i < |es| ==> es[i] == es[1..][i - 1];
      if es[0].zPosition <= rest then es[0].zPosition else rest
  }

  /** `maxZ + 1` does not trap: either the id is absent (the guard returns first) or there is room above. */
  predicate CanBringToFront(es: seq<EmojiElement>, id: Uuid)
  {
    IndexOfId(es, id).Some? ==> MaxZ(es) < Int64Max
  }

  /** `minZ - 1` does not trap. */
  predicate CanSendToBack(es: seq<EmojiElement>, id: Uuid)
  {
    IndexOfId(es, id).Some? ==> MinZ(es) > Int64Min
  }

  /** The element list after `moveElementToFront(withID:)`. */
  function BringToFront(es: seq<EmojiElement>, id: Uuid): (r: seq<EmojiElement>)
    requires CanBringToFront(es, id)
    ensures |r| == |es|
    ensures IndexOfId(es, id).None? ==> r == es
    ensures IndexOfId(es, id).Some? ==>
      var i := IndexOfId(es, id).value;
      && r[i] == es[i].(zPosition := MaxZ(es) + 1)
      && es[i].zPosition < r[i].zPosition
      && (forall j :: 0 <= j < |es| && j != i ==> r[j] == es[j] && r[j].zPosition < r[i].zPosition)
  {
    match IndexOfId(es, id)
    case None => es
    case Some(i) => es[i := es[i].(zPosition := MaxZ(es) + 1)]
  }

  /** The element list after `moveElementToBack(withID:)`. */
  function SendToBack(es: seq<EmojiElement>, id: Uuid): (r: seq<EmojiElement>)
    requires CanSendToBack(es, id)
    ensures |r| == |es|
    ensures IndexOfId(es, id).None? ==> r == es
    ensures IndexOfId(es, id).Some? ==>
      var i := IndexOfId(es, id).value;
      && r[i] == es[i].(zPosition := MinZ(es) - 1)
      && r[i].zPosition < es[i].zPosition
      && (forall j :: 0 <= j < |es| && j != i ==> r[j] == es[j] && r[i].zPosition < r[j].zPosition)
  {
    match IndexOfId(es, id)
    case None => es
    case Some(i) => es[i := es[i].(zPosition := MinZ(es) - 1)]
  }

  /** Bringing the same element to front twice raises it again, and it stays on top of all others. */
  lemma BringToFrontTwice(es: seq<EmojiElement>, id: Uuid, i: nat)
    requires IndexOfId(es, id) == Some(i)
    requires MaxZ(es) < Int64Max - 1
    ensures CanBringToFront(BringToFront(es, id), id)
    ensures IndexOfId(BringToFront(es, id), id) == Some(i)
    ensures BringToFront(es, id)[i].zPosition < BringToFront(BringToFront(es, id), id)[i].zPosition
    ensures MaxZ(BringToFront(es, id)) == BringToFront(es, id)[i].zPosition
  {
    var once := BringToFront(es, id);
    assert Ids(once) == Ids(es);
    assert IndexOfId(once, id) == Some(i);
    assert MaxZ(once) == once[i].zPosition;
  }

  /** Sending the same element to back twice lowers it again, and it stays below all others. */
  lemma SendToBackTwice(es: seq<EmojiElement>, id: Uuid, i: nat)
    requires IndexOfId(es, id) == Some(i)
    requires MinZ(es) > Int64Min + 1
    ensures CanSendToBack(SendToBack(es, id), id)
    ensures IndexOfId(SendToBack(es, id), id) == Some(i)
    ensures SendToBack(SendToBack(es, id), id)[i].zPosition < SendToBack(es, id)[i].zPosition
    ensures MinZ(SendToBack(es, id)) == SendToBack(es, id)[i].zPosition
  {
    var once := SendToBack(es, id);
    assert Ids(once) == Ids(es);
    assert IndexOfId(once, id) == Some(i);
    assert MinZ(once) == once[i].zPosition;
  }

  // ---------------------------------------------------------------- removal

  /** The element list after `removeAll { $0.id == id }`. */
  function RemoveAllWithId(es: seq<EmojiElement>, id: Uuid): (r: seq<EmojiElement>)
    ensures forall j :: 0 <= j < |r| ==> r[j].id != id
    ensures |r| <= |es|
  {
    if es == [] then []
    else
      var rest := RemoveAllWithId(es[1..], id);
      if es[0].id == id then rest else [es[0]] + rest
  }

  /** Removal drops every copy of each element with the id and keeps every copy of every other element. */
  lemma {:induction false} RemoveAllCounts(es: seq<EmojiElement>, id: Uuid, e: EmojiElement)
    ensures multiset(RemoveAllWithId(es, id))[e] == if e.id == id then 0 else multiset(es)[e]
  {
    if es != [] {
      RemoveAllCounts(es[1..], id, e);
      assert es == [es[0]] + es[1..];
    }
  }

  /** Removal keeps relative order: it distributes over concatenation. */
  lemma {:induction false} RemoveAllAppend(a: seq<EmojiElement>, b: seq<EmojiElement>, id: Uuid)
    ensures RemoveAllWithId(a + b, id) == RemoveAllWithId(a, id) + RemoveAllWithId(b, id)
  {
    if a == [] {
      assert a + b == b;
    } else {
      var ab := a + b;
      assert ab[0] == a[0];
      assert ab[1..] == a[1..] + b;
      RemoveAllAppend(a[1..], b, id);
      assert RemoveAllWithId(ab, id) == (if a[0].id == id then [] else [a[0]]) + RemoveAllWithId(ab[1..], id);
      assert RemoveAllWithId(a, id) == (if a[0].id == id then [] else [a[0]]) + RemoveAllWithId(a[1..], id);
    }
  }

  /** Removing an id that no element has leaves the list as it was. */
  lemma {:induction false} RemoveAbsentIsNoop(es: seq<EmojiElement>, id: Uuid)
    requires IndexOfId(es, id).None?
    ensures RemoveAllWithId(es, id) == es
  {
    if es != [] {
      assert IndexOfId(es[1..], id).None? by {
        forall j | 0 <= j < |es[1..]| ensures es[1..][j].id != id { assert es[1..][j] == es[j + 1]; }
      }
      RemoveAbsentIsNoop(es[1..], id);
    }
  }

  // ---------------------------------------------------------------- the document

  /** `class Emoji`: a document whose element list is changed in place. */
  class Emoji {
    /** Never reassigned after initialization, so it is a constant here. */
    const id: Uuid
    var name: string
    var elements: seq<EmojiElement>
    var isAnimated: bool
    var animationDuration: real
    /** `Date()` comes from the clock, so the caller supplies it. */
    var createdDate: real

    constructor (id: Uuid, createdDate: real, name: string := "New Emoji",
                 elements: seq<EmojiElement> := [], isAnimated: bool := false,
                 animationDuration: real := 1.0)
      ensures this.id == id && this.createdDate == createdDate && this.name == name
      ensures this.elements == elements && this.isAnimated == isAnimated
      ensures this.animationDuration == animationDuration
    {
      this.id := id;
      this.name := name;
      this.elements := elements;
      this.isAnimated := isAnimated;
      this.animationDuration := animationDuration;
      this.createdDate := createdDate;
    }

    /** `addElement(_:)`: appends; no check for an id already present. */
    method AddElement(element: EmojiElement)
      modifies this`elements
      ensures elements == old(elements) + [element]
    {
      elements := elements + [element];
    }

    /** `removeElement(withID:)` */
    method RemoveElement(id: Uuid)
      modifies this`elements
      ensures elements == RemoveAllWithId(old(elements), id)
    {
      elements := RemoveAllWithId(elements, id);
    }

    /** `moveElementToFront(withID:)`; Swift traps if `maxZ + 1` overflows. */
    method MoveElementToFront(id: Uuid)
      requires CanBringToFront(elements, id)
      modifies this`elements
      ensures elements == BringToFront(old(elements), id)
    {
      var index := IndexOfId(elements, id);
      if index.None? {
        return;
      }
      var maxZ := MaxZ(elements);
      var element := elements[index.value];
      element := element.(zPosition := maxZ + 1);
      elements := elements[index.value := element];
    }

    /** `moveElementToBack(withID:)`; Swift traps if `minZ - 1` overflows. */
    method MoveElementToBack(id: Uuid)
      requires CanSendToBack(elements, id)
      modifies this`elements
      ensures elements == SendToBack(old(elements), id)
    {
      var index := IndexOfId(elements, id);
      if index.None? {
        return;
      }
      var minZ := MinZ(elements);
      var element := elements[index.value];
      element := element.(zPosition := minZ - 1);
      elements := elements[index.value := element];
    }
  }

  /** A document built with every default is named "New Emoji", empty, not animated, with a one-second duration. */
  method NewDocument(id: Uuid, createdDate: real) returns (doc: Emoji)
    ensures fresh(doc)
    ensures doc.id == id && doc.name == "New Emoji" && doc.elements == []
    ensures !doc.isAnimated && doc.animationDuration == 1.0 && doc.createdDate == createdDate
  {
    doc := new Emoji(id, createdDate);
  }
}
