/**
 * Slide elements and the sequence operations the command dispatcher applies to a
 * slide's element list. Order in the list is z-order: index 0 is the bottom.
 */
module Elements {
  import opened Layout

  /** The variant part of an element. */
  datatype Kind =
    | Text(content: seq<FontData>, lineHeight: real)
    | Shape(fill: string, opacity: real)
    | Image(src: string, opacity: real)
    | LineShape

  /** A positioned element; flipH and flipV are 1 or -1 on shapes and images. */
  datatype Element = Element(
    id: string, left: real, top: real, width: real, height: real, rotate: real,
    flipH: int, flipV: int, kind: Kind)

  /** Array.prototype.findIndex by id: the first index whose element has the id, or -1. */
  function IndexOfId(s: seq<Element>, id: string): (k: int)
    ensures -1 <= k < |s|
    ensures k >= 0 ==> s[k].id == id && forall j :: 0 <= j < k ==> s[j].id != id
    ensures k == -1 <==> forall j :: 0 <= j < |s| ==> s[j].id != id
  {
    if |s| == 0 then -1
    else if s[0].id == id then 0
    else
      var k := IndexOfId(s[1..], id);
      assert forall j :: 1 <= j < |s| ==> s[j] == s[1..][j - 1];
      if k == -1 then -1 else k + 1
  }

  /** splice(i, 1): the sequence without its element at index i. */
  function Remove<T>(s: seq<T>, i: nat): (r: seq<T>)
    requires i < |s|
    ensures |r| == |s| - 1
    ensures forall j :: 0 <= j < i ==> r[j] == s[j]
    ensures forall j :: i <= j < |r| ==> r[j] == s[j + 1]
  {
    s[..i] + s[i + 1..]
  }

  /** splice(i, 0, x): the sequence with x inserted before index i. */
  function Insert<T>(s: seq<T>, i: nat, x: T): (r: seq<T>)
    requires i <= |s|
    ensures |r| == |s| + 1 && r[i] == x
    ensures forall j :: 0 <= j < i ==> r[j] == s[j]
    ensures forall j :: i < j < |r| ==> r[j] == s[j - 1]
  {
    s[..i] + [x] + s[i..]
  }

  /** Taking an element out and putting it back anywhere keeps the multiset of elements. */
  lemma ReinsertIsPermutation<T>(s: seq<T>, k: nat, j: nat)
    requires k < |s| && j <= |s| - 1
    ensures multiset(Insert(Remove(s, k), j, s[k])) == multiset(s)
  {
    var rest := Remove(s, k);
    calc {
      multiset(s);
      { assert s == s[..k] + [s[k]] + s[k + 1..]; }
      multiset(s[..k]) + multiset{s[k]} + multiset(s[k + 1..]);
      multiset(rest) + multiset{s[k]};
      { assert rest == rest[..j] + rest[j..]; }
      multiset(rest[..j]) + multiset{s[k]} + multiset(rest[j..]);
      multiset(Insert(rest, j, s[k]));
    }
  }

  /** Moving one slot up (splice out at k, splice in at k + 1) exchanges s[k] and s[k + 1]. */
  lemma MoveUpSwaps<T>(s: seq<T>, k: nat)
    requires k + 1 < |s|
    ensures Insert(Remove(s, k), k + 1, s[k]) == s[k := s[k + 1]][k + 1 := s[k]]
  {
    var r := Insert(Remove(s, k), k + 1, s[k]);
    var t := s[k := s[k + 1]][k + 1 := s[k]];
    assert |r| == |t|;
    forall j | 0 <= j < |r|
      ensures r[j] == t[j]
    {
      if j < k {
      } else if j == k {
        assert r[k] == Remove(s, k)[k];
      } else if j == k + 1 {
      } else {
        assert r[j] == Remove(s, k)[j - 1];
      }
    }
  }

  /** Moving one slot down (splice out at k, splice in at k - 1) exchanges s[k - 1] and s[k]. */
  lemma MoveDownSwaps<T>(s: seq<T>, k: nat)
    requires 0 < k < |s|
    ensures Insert(Remove(s, k), k - 1, s[k]) == s[k - 1 := s[k]][k := s[k - 1]]
  {
    var r := Insert(Remove(s, k), k - 1, s[k]);
    var t := s[k - 1 := s[k]][k := s[k - 1]];
    assert |r| == |t|;
    forall j | 0 <= j < |r|
      ensures r[j] == t[j]
    {
      if j < k - 1 {
      } else if j == k - 1 {
      } else if j == k {
        assert r[k] == Remove(s, k)[k - 1];
      } else {
        assert r[j] == Remove(s, k)[j - 1];
      }
    }
  }

  /** Bring to front: s[k] taken out (splice(k, 1)) and pushed on top. */
  function BroughtToFront<T>(s: seq<T>, k: nat): seq<T>
    requires k < |s|
  {
    Remove(s, k) + [s[k]]
  }

  /** Send to back: s[k] taken out (splice(k, 1)) and put at the bottom (unshift). */
  function SentToBack<T>(s: seq<T>, k: nat): seq<T>
    requires k < |s|
  {
    [s[k]] + Remove(s, k)
  }

  /**
   * Bring to front: s[k] ends last, the elements below it keep their index and the
   * ones above it shift down by one; nothing is lost or duplicated.
   */
  lemma MoveTopShape<T>(s: seq<T>, k: nat)
    requires k < |s|
    ensures var r := BroughtToFront(s, k);
      && |r| == |s| && r[|r| - 1] == s[k]
      && (forall j :: 0 <= j < k ==> r[j] == s[j])
      && (forall j :: k <= j < |s| - 1 ==> r[j] == s[j + 1])
      && multiset(r) == multiset(s)
  {
    ReinsertIsPermutation(s, k, |s| - 1);
    assert Insert(Remove(s, k), |s| - 1, s[k]) == BroughtToFront(s, k);
  }

  /**
   * Send to back: s[k] ends first, the elements below it shift up by one and the
   * ones above it keep their index; nothing is lost or duplicated.
   */
  lemma MoveBottomShape<T>(s: seq<T>, k: nat)
    requires k < |s|
    ensures var r := SentToBack(s, k);
      && |r| == |s| && r[0] == s[k]
      && (forall j :: 0 <= j < k ==> r[j + 1] == s[j])
      && (forall j :: k < j < |s| ==> r[j] == s[j])
      && multiset(r) == multiset(s)
  {
    ReinsertIsPermutation(s, k, 0);
    assert Insert(Remove(s, k), 0, s[k]) == SentToBack(s, k);
  }

  /** Removing index k leaves every other element: the multiset loses exactly s[k]. */
  lemma RemoveMultiset<T>(s: seq<T>, k: nat)
    requires k < |s|
    ensures multiset(Remove(s, k)) + multiset{s[k]} == multiset(s)
  {
    assert s == s[..k] + [s[k]] + s[k + 1..];
  }

  /** The ids of a slide's elements are pairwise distinct. */
  predicate UniqueIds(s: seq<Element>)
  {
    forall i, j :: 0 <= i < j < |s| ==> s[i].id != s[j].id
  }

  /** With unique ids, deleting the element found by id leaves no element with that id. */
  lemma RemoveByIdLeavesNone(s: seq<Element>, id: string)
    requires UniqueIds(s) && IndexOfId(s, id) >= 0
    ensures forall j :: 0 <= j < |s| - 1 ==> Remove(s, IndexOfId(s, id))[j].id != id
    ensures UniqueIds(Remove(s, IndexOfId(s, id)))
  {
    var k := IndexOfId(s, id);
    var r := Remove(s, k);
    forall j | 0 <= j < |r|
      ensures r[j].id != id
    {
      if j >= k {
        assert r[j] == s[j + 1];
      }
    }
    forall i, j | 0 <= i < j < |r|
      ensures r[i].id != r[j].id
    {
      var i' := if i < k then i else i + 1;
      var j' := if j < k then j else j + 1;
      assert r[i] == s[i'] && r[j] == s[j'];
    }
  }

  /**
   * StageConfig.updateElement: the first element with e's id is replaced by e and
   * every other position keeps its element; a list without that id is left as it is.
   */
  function ReplaceById(s: seq<Element>, e: Element): (r: seq<Element>)
    ensures |r| == |s|
    ensures forall j :: 0 <= j < |s| ==>
      r[j] == (if s[j].id == e.id && forall i :: 0 <= i < j ==> s[i].id != e.id then e else s[j])
    ensures forall j :: 0 <= j < |s| ==> r[j].id == s[j].id
  {
    var k := IndexOfId(s, e.id);
    if k < 0 then s else s[k := e]
  }

  /**
   * Start index of Array.prototype.splice for an integer start: negative values count
   * from the end (clamped to 0), values past the end are clamped to the length.
   */
  function SpliceStart(position: int, len: nat): (start: nat)
    ensures start <= len
  {
    if position < 0 then (if len + position < 0 then 0 else len + position)
    else if position > len then len
    else position
  }

  /** content.splice(position, 0, text). */
  function InsertAt<T>(content: seq<T>, position: int, text: T): (r: seq<T>)
  {
    Insert(content, SpliceStart(position, |content|), text)
  }

  /**
   * Inserting one character adds exactly it: at an in-range position it lands there,
   * past the end it is appended, a negative position counts from the end, and one
   * below -|content| prepends.
   */
  lemma InsertAtShape<T>(content: seq<T>, position: int, text: T)
    ensures |InsertAt(content, position, text)| == |content| + 1
    ensures multiset(InsertAt(content, position, text)) == multiset(content) + multiset{text}
    ensures 0 <= position <= |content| ==>
      InsertAt(content, position, text) == content[..position] + [text] + content[position..]
    ensures position > |content| ==> InsertAt(content, position, text) == content + [text]
    ensures -|content| <= position < 0 ==>
      InsertAt(content, position, text)
        == content[..|content| + position] + [text] + content[|content| + position..]
    ensures position < -|content| ==> InsertAt(content, position, text) == [text] + content
  {
    var st := SpliceStart(position, |content|);
    assert content == content[..st] + content[st..];
    if position > |content| {
      assert content[..st] == content && content[st..] == [];
    } else if position < -|content| {
      assert content[..st] == [] && content[st..] == content;
    }
  }
}
