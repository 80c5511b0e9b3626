/**
 * The draft order's list of line items: its total, and removal of the
 * item at a position.
 */
module DraftOrder {
  import opened Types

  /** `reduce((acc, item) => acc + item.cost, acc)`: a left fold over the items. */
  function FoldCost(acc: real, items: seq<NewOrderItem>): real
    decreases |items|
  {
    if items == [] then acc else FoldCost(acc + items[0].cost, items[1..])
  }

  /** The arithmetic sum of the items' costs, as a reference definition. */
  function SumCosts(items: seq<NewOrderItem>): real
    decreases |items|
  {
    if items == [] then 0.0 else items[0].cost + SumCosts(items[1..])
  }

  lemma {:induction false} FoldCostIsSum(acc: real, items: seq<NewOrderItem>)
    ensures FoldCost(acc, items) == acc + SumCosts(items)
    decreases |items|
  {
    if items != [] {
      FoldCostIsSum(acc + items[0].cost, items[1..]);
    }
  }

  /**
   * The order total, folded from 0: exactly the sum of the item costs, and
   * never negative when no item cost is.
   */
  function TotalCost(items: seq<NewOrderItem>): (total: real)
    ensures total == SumCosts(items)
    ensures (forall k | 0 <= k < |items| :: items[k].cost >= 0.0) ==> total >= 0.0
  {
    FoldCostIsSum(0.0, items);
    SumNonNegative(items);
    FoldCost(0.0, items)
  }

  lemma {:induction false} SumNonNegative(items: seq<NewOrderItem>)
    ensures (forall k | 0 <= k < |items| :: items[k].cost >= 0.0) ==> SumCosts(items) >= 0.0
    decreases |items|
  {
    if items != [] {
      assert forall k | 0 <= k < |items| - 1 :: items[1..][k] == items[k + 1];
      SumNonNegative(items[1..]);
    }
  }

  lemma {:induction false} SumConcat(a: seq<NewOrderItem>, b: seq<NewOrderItem>)
    ensures SumCosts(a + b) == SumCosts(a) + SumCosts(b)
    decreases |a|
  {
    if a != [] {
      assert (a + b)[1..] == a[1..] + b;
      SumConcat(a[1..], b);
    } else {
      assert a + b == b;
    }
  }

  /** Appending an item adds its cost to the total. */
  lemma TotalAppend(items: seq<NewOrderItem>, item: NewOrderItem)
    ensures TotalCost(items + [item]) == TotalCost(items) + item.cost
  {
    SumConcat(items, [item]);
  }

  /**
   * `filter((_, i) => i !== index)` over the positions from `offset` on:
   * keeps every item whose position is not `index`.
   */
  function FilterIndex<T>(items: seq<T>, index: int, offset: int): seq<T>
    decreases |items|
  {
    if items == [] then []
    else (if offset != index then [items[0]] else []) + FilterIndex(items[1..], index, offset + 1)
  }

  lemma {:induction false} FilterIndexSplices<T>(items: seq<T>, index: int, offset: int)
    ensures offset <= index < offset + |items| ==>
              FilterIndex(items, index, offset) == items[..index - offset] + items[index - offset + 1..]
    ensures !(offset <= index < offset + |items|) ==> FilterIndex(items, index, offset) == items
    decreases |items|
  {
    if items != [] {
      FilterIndexSplices(items[1..], index, offset + 1);
      if offset == index {
        assert FilterIndex(items, index, offset) == FilterIndex(items[1..], index, offset + 1);
      } else if offset < index < offset + |items| {
        assert items[..index - offset] == [items[0]] + items[1..][..index - offset - 1];
        assert items[index - offset + 1..] == items[1..][index - offset..];
      } else {
        assert items == [items[0]] + items[1..];
      }
    }
  }

  /**
   * `handleRemoveItem`'s filter: for a position inside the list, the list
   * without that item, others kept in order; for any other index the list
   * unchanged (no error).
   */
  function RemoveAt<T>(items: seq<T>, index: int): (r: seq<T>)
    ensures 0 <= index < |items| ==> r == items[..index] + items[index + 1..]
    ensures 0 <= index < |items| ==> |r| == |items| - 1
    ensures !(0 <= index < |items|) ==> r == items
  {
    FilterIndexSplices(items, index, 0);
    FilterIndex(items, index, 0)
  }

  /** Removing an item takes exactly its cost off the total. */
  lemma TotalRemove(items: seq<NewOrderItem>, index: int)
    requires 0 <= index < |items|
    ensures TotalCost(RemoveAt(items, index)) == TotalCost(items) - items[index].cost
  {
    assert items == items[..index] + ([items[index]] + items[index + 1..]);
    SumConcat(items[..index], [items[index]] + items[index + 1..]);
    SumConcat(items[..index], items[index + 1..]);
  }

  /** Adding an item and then removing it again gives back the list before. */
  lemma AddThenRemove<T>(items: seq<T>, item: T)
    ensures RemoveAt(items + [item], |items|) == items
  {
    assert (items + [item])[..|items|] == items;
  }

  /** Removing the item at a position takes exactly that item out of the multiset of items. */
  lemma RemoveAtMultiset<T>(items: seq<T>, index: int)
    requires 0 <= index < |items|
    ensures multiset(RemoveAt(items, index)) == multiset(items) - multiset{items[index]}
  {
    assert items == items[..index] + [items[index]] + items[index + 1..];
    assert multiset(items) == multiset(items[..index]) + multiset{items[index]} + multiset(items[index + 1..]);
  }

  /**
   * The total does not depend on the order of the items: any two lists
   * holding the same items have the same total.
   */
  lemma {:induction false} TotalIsOrderIndependent(a: seq<NewOrderItem>, b: seq<NewOrderItem>)
    requires multiset(a) == multiset(b)
    ensures TotalCost(a) == TotalCost(b)
    decreases |a|
  {
    if a != [] {
      var x := a[0];
      assert x in multiset(b);
      var j :| 0 <= j < |b| && b[j] == x;
      RemoveAtMultiset(b, j);
      assert a == [x] + a[1..];
      assert multiset(a[1..]) == multiset(a) - multiset{x};
      TotalIsOrderIndependent(a[1..], RemoveAt(b, j));
      TotalRemove(b, j);
    } else {
      assert |b| == |multiset(b)| == 0;
    }
  }
}
