/**
 * `MainViewController`: the library of saved documents. Saving from the editor
 * replaces the document with the same id where it stands, or appends it.
 */
module Gallery {
  import opened Wrappers
  import opened Collections
  import opened EmojiModel

  function EmojiIds(s: seq<Emoji>): (ids: seq<Uuid>)
    ensures |ids| == |s| && forall i :: 0 <= i < |s| ==> ids[i] == s[i].id
  {
    seq(|s|, i requires 0 <= i < |s| => s[i].id)
  }

  /** `emojis.firstIndex(where: { $0.id == id })` */
  function IndexOfEmoji(s: seq<Emoji>, id: Uuid): (r: Option<nat>)
    ensures r.Some? ==> r.value < |s| && s[r.value].id == id
    ensures r.Some? ==> forall j :: 0 <= j < r.value ==> s[j].id != id
    ensures r.None? <==> forall j :: 0 <= j < |s| ==> s[j].id != id
  {
    var r := FirstIndex(EmojiIds(s), id);
    assert r.None? ==> forall j :: 0 <= j < |s| ==> EmojiIds(s)[j] != id;
    r
  }

  /** No two documents of the library share an id. */
  predicate UniqueEmojiIds(s: seq<Emoji>)
  {
    forall i, j :: 0 <= i < j < |s| ==> s[i].id != s[j].id
  }

  /** The library after `didSaveEmoji(_:)`: the first entry with the id is replaced, or the document is appended. */
  function Upsert(s: seq<Emoji>, e: Emoji): (r: seq<Emoji>)
    ensures e in r && |s| <= |r| <= |s| + 1
    ensures forall x :: x in s && x.id != e.id ==> x in r
  {
    match IndexOfEmoji(s, e.id)
    case Some(i) =>
      var r := s[i := e];
      assert r[i] == e;
      assert forall j :: 0 <= j < |s| && s[j].id != e.id ==> r[j] == s[j];
      r
    case None => s + [e]
  }

  /** An entry with the same id is replaced where it stands; the length and every other entry stay. */
  lemma UpsertReplaces(s: seq<Emoji>, e: Emoji, i: nat)
    requires IndexOfEmoji(s, e.id) == Some(i)
    ensures |Upsert(s, e)| == |s| && Upsert(s, e)[i] == e
    ensures forall j :: 0 <= j < |s| && j != i ==> Upsert(s, e)[j] == s[j]
  {
  }

  /** Without an entry of the same id, the document goes at the end and the rest stays in order. */
  lemma UpsertAppends(s: seq<Emoji>, e: Emoji)
    requires forall j :: 0 <= j < |s| ==> s[j].id != e.id
    ensures Upsert(s, e) == s + [e]
  {
  }

  /** After a save the document is found under its id, at its old place or at the end. */
  lemma UpsertFinds(s: seq<Emoji>, e: Emoji)
    ensures IndexOfEmoji(Upsert(s, e), e.id) ==
      if IndexOfEmoji(s, e.id).Some? then IndexOfEmoji(s, e.id) else Some(|s|)
    ensures var i := IndexOfEmoji(Upsert(s, e), e.id).value; Upsert(s, e)[i] == e
  {
    var r := Upsert(s, e);
    assert EmojiIds(r)[..|s|] == EmojiIds(s);
    match IndexOfEmoji(s, e.id)
    case Some(i) =>
      assert EmojiIds(r) == EmojiIds(s);
    case None =>
      assert r[|s|] == e;
      assert forall j :: 0 <= j < |s| ==> r[j] == s[j];
  }

  /** Saving the same document twice leaves the library as saving it once. */
  lemma {:induction false} UpsertIdempotent(s: seq<Emoji>, e: Emoji)
    ensures Upsert(Upsert(s, e), e) == Upsert(s, e)
  {
    var once := Upsert(s, e);
    UpsertFinds(s, e);
    var i := IndexOfEmoji(once, e.id).value;
    assert once[i := e] == once;
  }

  /** A library without duplicate ids keeps that property through a save. */
  lemma UpsertKeepsIdsUnique(s: seq<Emoji>, e: Emoji)
    requires UniqueEmojiIds(s)
    ensures UniqueEmojiIds(Upsert(s, e))
  {
  }

  class MainViewController {
    var emojis: seq<Emoji>

    constructor ()
      ensures emojis == []
    {
      emojis := [];
    }

    /**
     * `loadSavedEmojis`: the library starts with three sample documents. Each document
     * reads `UUID()` and `Date()` once, so the caller supplies three ids and three dates.
     */
    method LoadSavedEmojis(id1: Uuid, id2: Uuid, id3: Uuid, date1: real, date2: real, date3: real)
      modifies this`emojis
      ensures |emojis| == 3 && fresh(emojis[0]) && fresh(emojis[1]) && fresh(emojis[2])
      ensures emojis[0].name == "Happy Face" && emojis[1].name == "Cool Emoji" && emojis[2].name == "Party Time"
      ensures EmojiIds(emojis) == [id1, id2, id3]
      ensures forall k :: 0 <= k < 3 ==>
        emojis[k].elements == [] && !emojis[k].isAnimated && emojis[k].animationDuration == 1.0
      ensures emojis[0].createdDate == date1 && emojis[1].createdDate == date2 && emojis[2].createdDate == date3
    {
      var emoji1 := new Emoji(id1, date1, name := "Happy Face");
      var emoji2 := new Emoji(id2, date2, name := "Cool Emoji");
      var emoji3 := new Emoji(id3, date3, name := "Party Time");
      emojis := [emoji1, emoji2, emoji3];
    }

    /** `didSaveEmoji(_:)`: the saved document replaces the entry with its id, or is appended. */
    method DidSaveEmoji(emoji: Emoji)
      modifies this`emojis
      ensures emojis == Upsert(old(emojis), emoji)
    {
      var index := IndexOfEmoji(emojis, emoji.id);
      if index.Some? {
        emojis := emojis[index.value := emoji];
      } else {
        emojis := emojis + [emoji];
      }
    }
  }
}
