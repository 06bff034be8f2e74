/**
 * `StackRanking`: a list the visitor reorders by dragging. The current order is a permutation of
 * the items it was given, and every item's rank is its position plus one.
 */
module StackRanking {
  import opened Wrappers

  datatype RankableItem = RankableItem(id: string, text: string, rank: Option<int>)

  // ---------------------------------------------------------------------------------------------
  // Moving one element

  /** `splice(d, 1)`: the list without its element at `d`. */
  function RemoveAt<T>(s: seq<T>, d: nat): (r: seq<T>)
    requires d < |s|
    ensures |r| == |s| - 1
    ensures forall i :: 0 <= i < d ==> r[i] == s[i]
    ensures forall i :: d <= i < |r| ==> r[i] == s[i + 1]
  {
    s[..d] + s[d + 1..]
  }

  /** `splice(d, 1)` followed by `splice(h, 0, dragged)`: the element at `d` taken out and put
      back in at `h`. */
  function Moved<T>(s: seq<T>, d: nat, h: nat): (r: seq<T>)
    requires d < |s| && h < |s|
    ensures |r| == |s| && r[h] == s[d]
  {
    var rest := RemoveAt(s, d);
    rest[..h] + [s[d]] + rest[h..]
  }

  /** Moving keeps the elements, as a multiset. */
  lemma MovedSameElements<T>(s: seq<T>, d: nat, h: nat)
    requires d < |s| && h < |s|
    ensures multiset(Moved(s, d, h)) == multiset(s)
  {
    var rest := RemoveAt(s, d);
    assert multiset(rest) + multiset{s[d]} == multiset(s) by {
      assert s == s[..d] + [s[d]] + s[d + 1..];
    }
    assert multiset(Moved(s, d, h)) == multiset(rest) + multiset{s[d]} by {
      assert rest == rest[..h] + rest[h..];
    }
  }

  /** The moved list has the same elements, the dragged one now at `h`, and the others in their
      previous relative order. */
  lemma MovedSpec<T>(s: seq<T>, d: nat, h: nat)
    requires d < |s| && h < |s|
    ensures |Moved(s, d, h)| == |s|
    ensures multiset(Moved(s, d, h)) == multiset(s)
    ensures Moved(s, d, h)[h] == s[d]
    ensures RemoveAt(Moved(s, d, h), h) == RemoveAt(s, d)
  {
    MovedSameElements(s, d, h);
    var rest := RemoveAt(s, d);
    assert rest[..h] + rest[h..] == rest;
    assert RemoveAt(Moved(s, d, h), h) == rest[..h] + rest[h..];
  }

  /** Dropping an element where it was picked up changes nothing. */
  lemma MovedInPlace<T>(s: seq<T>, i: nat)
    requires i < |s|
    ensures Moved(s, i, i) == s
  {
    assert s == s[..i] + [s[i]] + s[i + 1..];
  }

  // ---------------------------------------------------------------------------------------------
  // Ranks

  /** `map((item, index) => ({...item, rank: index + 1}))`. */
  function Rerank(s: seq<RankableItem>): (r: seq<RankableItem>)
    ensures |r| == |s|
    ensures forall i :: 0 <= i < |r| ==> r[i] == s[i].(rank := Some(i + 1))
  {
    seq(|s|, i requires 0 <= i < |s| => s[i].(rank := Some(i + 1)))
  }

  /** An item without its rank: what a reordering must preserve. */
  function Unranked(s: seq<RankableItem>): (r: seq<RankableItem>)
    ensures |r| == |s|
    ensures forall i :: 0 <= i < |r| ==> r[i] == s[i].(rank := None)
  {
    seq(|s|, i requires 0 <= i < |s| => s[i].(rank := None))
  }

  predicate RanksArePositions(s: seq<RankableItem>) {
    forall i :: 0 <= i < |s| ==> s[i].rank == Some(i + 1)
  }

  /** Re-ranking numbers the list 1..n and keeps every item otherwise as it was. */
  lemma RerankSpec(s: seq<RankableItem>)
    ensures RanksArePositions(Rerank(s))
    ensures Unranked(Rerank(s)) == Unranked(s)
  {
  }

  /** Removing ranks commutes with moving. */
  lemma {:induction false} UnrankedMoved(s: seq<RankableItem>, d: nat, h: nat)
    requires d < |s| && h < |s|
    ensures Unranked(Moved(s, d, h)) == Moved(Unranked(s), d, h)
  {
    MovedSpec(s, d, h);
    MovedSpec(Unranked(s), d, h);
    var m, u := Moved(s, d, h), Moved(Unranked(s), d, h);
    forall i | 0 <= i < |s|
      ensures Unranked(m)[i] == u[i]
    {
      if i < h {
        assert m[i] == RemoveAt(s, d)[i] && u[i] == RemoveAt(Unranked(s), d)[i];
      } else if i > h {
        assert m[i] == RemoveAt(s, d)[i - 1] && u[i] == RemoveAt(Unranked(s), d)[i - 1];
      }
    }
  }

  // ---------------------------------------------------------------------------------------------
  // The component

  class Ranking {
    const items: seq<RankableItem>
    var rankedItems: seq<RankableItem>

    /** The order shown is a reordering of the given items, ranked by position. */
    predicate Valid()
      reads this
    {
      |rankedItems| == |items|
      && RanksArePositions(rankedItems)
      && multiset(Unranked(rankedItems)) == multiset(Unranked(items))
    }

    /** The initial state keeps the given order and ranks the i-th item i + 1. */
    constructor (items: seq<RankableItem>)
      ensures Valid()
      ensures this.items == items && rankedItems == Rerank(items)
    {
      this.items := items;
      rankedItems := Rerank(items);
      RerankSpec(items);
    }

    /** `moveItem(dragIndex, hoverIndex)`: returns what `onRankingChange` receives, when the
        callback is given. */
    method MoveItem(dragIndex: nat, hoverIndex: nat, hasCallback: bool) returns (notified: Option<seq<RankableItem>>)
      requires Valid() && dragIndex < |rankedItems| && hoverIndex < |rankedItems|
      modifies this
      ensures Valid()
      ensures rankedItems == Rerank(Moved(old(rankedItems), dragIndex, hoverIndex))
      ensures Unranked(rankedItems)[hoverIndex] == Unranked(old(rankedItems))[dragIndex]
      ensures RemoveAt(Unranked(rankedItems), hoverIndex) == RemoveAt(Unranked(old(rankedItems)), dragIndex)
      ensures notified == if hasCallback then Some(rankedItems) else None
    {
      var dragged := rankedItems[dragIndex];
      var newItems := rankedItems[..dragIndex] + rankedItems[dragIndex + 1..];
      newItems := newItems[..hoverIndex] + [dragged] + newItems[hoverIndex..];
      ghost var before := rankedItems;
      rankedItems := Rerank(newItems);
      RerankSpec(newItems);
      UnrankedMoved(before, dragIndex, hoverIndex);
      MovedSpec(Unranked(before), dragIndex, hoverIndex);
      notified := if hasCallback then Some(rankedItems) else None;
    }

    /** The drop target's `hover`: a move only when the dragged item is over another position;
        the dragged item's index becomes the hovered one. */
    method Hover(draggedIndex: nat, index: nat, hasCallback: bool) returns (newDraggedIndex: nat)
      requires Valid() && draggedIndex < |rankedItems| && index < |rankedItems|
      modifies this
      ensures Valid()
      ensures newDraggedIndex == index
      ensures Unranked(rankedItems)[index] == Unranked(old(rankedItems))[draggedIndex]
      ensures draggedIndex == index ==> rankedItems == old(rankedItems)
      ensures draggedIndex != index ==> rankedItems == Rerank(Moved(old(rankedItems), draggedIndex, index))
    {
      if draggedIndex != index {
        var _ := MoveItem(draggedIndex, index, hasCallback);
      }
      newDraggedIndex := index;
    }

    /** `resetRanking()`: back to the given order, whatever was shown before. */
    method ResetRanking(hasCallback: bool) returns (notified: Option<seq<RankableItem>>)
      requires Valid()
      modifies this
      ensures Valid()
      ensures rankedItems == Rerank(items)
      ensures notified == if hasCallback then Some(rankedItems) else None
    {
      rankedItems := Rerank(items);
      RerankSpec(items);
      notified := if hasCallback then Some(rankedItems) else None;
    }
  }
}
