/** The objects of the Gilded Rose: items whose sell-in count and quality the
    shop changes in place, and the shop itself, which holds an array of items
    and advances every one of them by a day. */
module Inventory {
  import opened ItemRules

  class Item {
    const name: string
    var sellIn: int32
    var quality: int32

    constructor (name: string, sellIn: int32, quality: int32)
      ensures this.name == name && this.sellIn == sellIn && this.quality == quality
    {
      this.name := name;
      this.sellIn := sellIn;
      this.quality := quality;
    }

    /** The part of the item that a day changes. */
    function Current(): Stock
      reads this
    {
      Stock(sellIn, quality)
    }
  }

  /** No item object appears twice. */
  ghost predicate Distinct<T>(s: seq<T>) {
    forall i, j :: 0 <= i < j < |s| ==> s[i] != s[j]
  }

  lemma {:induction false} OccursOnce<T>(s: seq<T>, k: nat)
    requires Distinct(s) && k < |s|
    ensures multiset(s)[s[k]] == 1
  {
    if k == 0 {
      assert s == [s[0]] + s[1..];
      assert s[0] !in s[1..];
      assert s[0] !in multiset(s[1..]);
    } else {
      assert s == [s[0]] + s[1..];
      assert Distinct(s[1..]) by {
        forall i, j | 0 <= i < j < |s[1..]| ensures s[1..][i] != s[1..][j] {
          assert s[1..][i] == s[i + 1] && s[1..][j] == s[j + 1];
        }
      }
      OccursOnce(s[1..], k - 1);
      assert s[1..][k - 1] == s[k];
    }
  }

  /** Item `refs[k]` has been advanced from `start[k]` by one day for each
      time it occurs in `done`. */
  ghost predicate AdvancedBy(refs: seq<Item>, start: seq<Stock>, done: seq<Item>)
    reads refs
  {
    |start| == |refs| &&
    forall k :: 0 <= k < |refs| ==>
      refs[k].Current() == Days(refs[k].name, start[k], multiset(done)[refs[k]])
  }

  /** When no object occurs twice, each one is advanced by exactly one day. */
  lemma AdvancedOnce<T>(refs: seq<T>, k: nat, name: string, st: Stock)
    requires Distinct(refs) && k < |refs|
    ensures Days(name, st, multiset(refs)[refs[k]]) == Step(name, st.sellIn, st.quality)
  {
    OccursOnce(refs, k);
  }

  class GildedRose {
    var items: array<Item>

    constructor (items: array<Item>)
      ensures this.items == items
    {
      this.items := items;
    }

    /** One day for one item, its fields changed in place. */
    method UpdateItem(item: Item)
      modifies item
      ensures item.Current() == Step(item.name, old(item.sellIn), old(item.quality))
    {
      var category := CategoryOf(item.name);
      if category == Legendary {
        return;
      }
      if category == Standard {
        if item.quality > 0 {
          item.quality := item.quality - 1;
        }
      } else {
        if item.quality < MAX_QUALITY {
          item.quality := item.quality + 1;
        }
        if category == BackstagePass {
          if item.sellIn < 11 && item.quality < MAX_QUALITY {
            item.quality := item.quality + 1;
          }
          if item.sellIn < 6 && item.quality < MAX_QUALITY {
            item.quality := item.quality + 1;
          }
        }
      }
      item.sellIn := Decrement(item.sellIn);
      if item.sellIn < 0 {
        if category == Standard {
          if item.quality > 0 {
            item.quality := item.quality - 1;
          }
        } else if category == Aged {
          if item.quality < MAX_QUALITY {
            item.quality := item.quality + 1;
          }
        } else {
          item.quality := 0;
        }
      }
    }

    /** UpdateItem on `item`, together with the bookkeeping the loop of
        UpdateQuality needs: `item` is one more object advanced by a day, and
        every other object is left alone. */
    method Advance(item: Item, ghost refs: seq<Item>, ghost start: seq<Stock>, ghost done: seq<Item>)
      requires AdvancedBy(refs, start, done)
      modifies item
      ensures AdvancedBy(refs, start, done + [item])
    {
      UpdateItem(item);
      forall k | 0 <= k < |refs|
        ensures refs[k].Current() == Days(refs[k].name, start[k], multiset(done + [item])[refs[k]])
      {
        var o := refs[k];
        var n := multiset(done)[o];
        assert old(o.Current()) == Days(o.name, start[k], n);
        if o == item {
          assert multiset(done + [item])[o] == n + 1;
        } else {
          assert unchanged(o);
          assert multiset(done + [item])[o] == n;
        }
      }
    }

    /** One day for every item of the array, in order.  The array and its
        item references stay as they are; an item object that appears in the
        array several times is advanced once per appearance, so when every
        object appears once each item is exactly one Step further on. */
    method UpdateQuality()
      modifies set k | 0 <= k < items.Length :: items[k]
      ensures items[..] == old(items[..])
      ensures forall k :: 0 <= k < items.Length ==>
                items[k].Current() == Days(items[k].name, old(items[k].Current()), multiset(items[..])[items[k]])
      ensures Distinct(items[..]) ==>
                forall k :: 0 <= k < items.Length ==>
                  items[k].Current() == Step(items[k].name, old(items[k].sellIn), old(items[k].quality))
    {
      ghost var refs := items[..];
      ghost var start := seq(|refs|, k requires 0 <= k < |refs| reads refs => refs[k].Current());
      for i := 0 to items.Length
        invariant AdvancedBy(refs, start, refs[..i])
      {
        var item := items[i];
        assert item == refs[i];
        Advance(item, refs, start, refs[..i]);
        assert refs[..i + 1] == refs[..i] + [item];
      }
      assert refs[..|refs|] == refs;
      if Distinct(refs) {
        forall k | 0 <= k < |refs|
          ensures refs[k].Current() == Step(refs[k].name, old(refs[k].sellIn), old(refs[k].quality))
        {
          AdvancedOnce(refs, k, refs[k].name, old(refs[k].Current()));
        }
      }
    }
  }
}
