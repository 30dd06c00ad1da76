/** The per-item rules of the Gilded Rose inventory: how one day changes the
    sell-in count and the quality of an item, depending only on its name, its
    sell-in count and its quality.  Everything here is pure; the classes that
    hold the items and update them in place are in module Inventory. */
module ItemRules {

  /** Java's `int`: the sell-in count and the quality are 32-bit two's
      complement integers. */
  newtype int32 = x: int | -0x8000_0000 <= x < 0x8000_0000

  const MIN_INT: int32 := -0x8000_0000
  const MAX_INT: int32 := 0x7fff_ffff

  /** The highest quality an ordinary item can reach by ageing. */
  const MAX_QUALITY: int32 := 50

  const AGED_BRIE := "Aged Brie"
  const SULFURAS := "Sulfuras, Hand of Ragnaros"
  const BACKSTAGE_PASSES := "Backstage passes to a TAFKAL80ETC concert"

  datatype Category = Standard | Aged | Legendary | BackstagePass

  /** The category is an exact match on the whole name; every other name,
      including the empty one, is a standard item. */
  function CategoryOf(name: string): (c: Category)
    ensures c == Aged <==> name == AGED_BRIE
    ensures c == Legendary <==> name == SULFURAS
    ensures c == BackstagePass <==> name == BACKSTAGE_PASSES
    ensures c == Standard <==> name !in {AGED_BRIE, SULFURAS, BACKSTAGE_PASSES}
  {
    if name == AGED_BRIE then Aged
    else if name == SULFURAS then Legendary
    else if name == BACKSTAGE_PASSES then BackstagePass
    else Standard
  }

  /** The mutable part of an item: what one day changes. */
  datatype Stock = Stock(sellIn: int32, quality: int32)

  /** Java's `sellIn - 1`, which wraps around at the smallest `int`. */
  function Decrement(s: int32): (r: int32)
    ensures (r as int) % 0x1_0000_0000 == (s as int - 1) % 0x1_0000_0000
  {
    if s == MIN_INT then MAX_INT else s - 1
  }

  /** One unit of quality gained, unless the quality is already at or above the cap. */
  function Improve(q: int32): int32 {
    if q < MAX_QUALITY then q + 1 else q
  }

  /** One unit of quality lost, unless the quality is already at or below zero. */
  function Degrade(q: int32): int32 {
    if q > 0 then q - 1 else q
  }

  /** One day for one item, in the order the update engine works: the quality
      changes according to the sell-in count before the day, then the sell-in
      count drops, and once it is negative the expired rule applies.  Each unit
      of quality is gained or lost only while the quality is inside [0, 50],
      so a value outside that range is never pulled back into it. */
  function Step(name: string, s: int32, q: int32): (r: Stock)
    ensures CategoryOf(name) == Legendary ==> r == Stock(s, q)
    ensures CategoryOf(name) != Legendary ==> r.sellIn == Decrement(s)
    ensures CategoryOf(name) != Legendary && 0 <= q <= MAX_QUALITY ==>
              0 <= r.quality <= MAX_QUALITY
  {
    match CategoryOf(name)
    case Legendary => Stock(s, q)
    case Standard =>
      var q1 := Degrade(q);
      var s1 := Decrement(s);
      Stock(s1, if s1 < 0 then Degrade(q1) else q1)
    case Aged =>
      var q1 := Improve(q);
      var s1 := Decrement(s);
      Stock(s1, if s1 < 0 then Improve(q1) else q1)
    case BackstagePass =>
      var q1 := Improve(q);
      var q2 := if s < 11 then Improve(q1) else q1;
      var q3 := if s < 6 then Improve(q2) else q2;
      var s1 := Decrement(s);
      Stock(s1, if s1 < 0 then 0 else q3)
  }

  /** `n` consecutive days for one item. */
  function Days(name: string, st: Stock, n: nat): (r: Stock)
    ensures CategoryOf(name) == Legendary ==> r == st
  {
    if n == 0 then st
    else
      var before := Days(name, st, n - 1);
      Step(name, before.sellIn, before.quality)
  }

  // ---------------------------------------------------------------------------
  // A closed-form statement of the category rules, independent of the order
  // of the guarded steps in Step, for qualities inside [0, 50].

  function Clamp(x: int): (r: int32)
    ensures 0 <= r <= MAX_QUALITY
    ensures 0 <= x <= MAX_QUALITY as int ==> r as int == x
    ensures x < 0 ==> r == 0
    ensures x > MAX_QUALITY as int ==> r == MAX_QUALITY
  {
    if x < 0 then 0 else if x > MAX_QUALITY as int then MAX_QUALITY else x as int32
  }

  /** A backstage pass gains 1 while more than 10 days remain, 2 while 6 to 10
      remain, and 3 while 5 or fewer remain. */
  function PassGain(s: int32): int {
    if s <= 5 then 3 else if s <= 10 then 2 else 1
  }

  /** The rules as a delta clamped to [0, 50]: standard items lose 1 per day
      and aged items gain 1, twice as much once the sell-by date has passed;
      backstage passes gain by PassGain and are worth nothing after the
      concert; the legendary item never changes. */
  function Reference(c: Category, s: int32, q: int32): Stock {
    var s1 := Decrement(s);
    var rate := if s1 < 0 then 2 else 1;
    match c
    case Legendary => Stock(s, q)
    case Standard => Stock(s1, Clamp(q as int - rate))
    case Aged => Stock(s1, Clamp(q as int + rate))
    case BackstagePass => Stock(s1, if s1 < 0 then 0 else Clamp(q as int + PassGain(s)))
  }

  lemma StepMatchesReference(name: string, s: int32, q: int32)
    requires 0 <= q <= MAX_QUALITY
    ensures Step(name, s, q) == Reference(CategoryOf(name), s, q)
  {
  }

  // ---------------------------------------------------------------------------
  // The rules one category at a time.

  /** A standard item before its sell-by date loses one day and one unit of
      quality, down to 0. */
  lemma StandardItemDegradesByOne(name: string, s: int32, q: int32)
    requires CategoryOf(name) == Standard && s > 0 && q >= 0
    ensures Step(name, s, q) == Stock(s - 1, if q > 0 then q - 1 else 0)
  {
  }

  /** Once its sell-by date has passed, a standard item loses two units a day,
      down to 0. */
  lemma StandardItemDegradesTwiceAsFastPastSellBy(name: string, s: int32, q: int32)
    requires CategoryOf(name) == Standard && MIN_INT < s <= 0 && q >= 0
    ensures Step(name, s, q) == Stock(s - 1, if q > 2 then q - 2 else 0)
  {
  }

  /** Aged Brie gains one unit while its sell-by date lies ahead and two once it
      is reached, up to 50. */
  lemma AgedBrieImproves(name: string, s: int32, q: int32)
    requires CategoryOf(name) == Aged && s > MIN_INT && q <= MAX_QUALITY
    ensures Step(name, s, q).sellIn == s - 1
    ensures s > 0 ==> Step(name, s, q).quality == if q < MAX_QUALITY then q + 1 else q
    ensures s <= 0 ==>
              Step(name, s, q).quality == if q < MAX_QUALITY - 1 then q + 2 else MAX_QUALITY
  {
  }

  /** A backstage pass before the concert gains 1, 2 or 3 units, up to 50. */
  lemma BackstagePassImproves(name: string, s: int32, q: int32)
    requires CategoryOf(name) == BackstagePass && s > 0 && 0 <= q <= MAX_QUALITY
    ensures Step(name, s, q).sellIn == s - 1
    ensures s > 10 ==> Step(name, s, q).quality as int == Min(q as int + 1, 50)
    ensures 5 < s <= 10 ==> Step(name, s, q).quality as int == Min(q as int + 2, 50)
    ensures s <= 5 ==> Step(name, s, q).quality as int == Min(q as int + 3, 50)
  {
  }

  /** After the concert a backstage pass is worth exactly nothing, whatever its
      quality was. */
  lemma BackstagePassWorthlessAfterConcert(name: string, s: int32, q: int32)
    requires CategoryOf(name) == BackstagePass && MIN_INT < s <= 0
    ensures Step(name, s, q) == Stock(s - 1, 0)
  {
  }

  /** A quality outside [0, 50] is never corrected: an aged item above the cap
      keeps it, and a standard item below zero keeps it. */
  lemma OutOfRangeQualityIsKept(name: string, s: int32, q: int32)
    ensures CategoryOf(name) == Aged && q >= MAX_QUALITY ==> Step(name, s, q).quality == q
    ensures CategoryOf(name) == Standard && q <= 0 ==> Step(name, s, q).quality == q
  {
  }

  function Min(a: int, b: int): int {
    if a < b then a else b
  }

  // ---------------------------------------------------------------------------
  // Properties over several days.

  /** An ordinary item that starts with a quality in [0, 50] keeps it there
      however many days pass. */
  lemma {:induction false} QualityStaysInRange(name: string, st: Stock, n: nat)
    requires CategoryOf(name) != Legendary && 0 <= st.quality <= MAX_QUALITY
    ensures 0 <= Days(name, st, n).quality <= MAX_QUALITY
  {
    if n > 0 {
      QualityStaysInRange(name, st, n - 1);
    }
  }

  /** An ordinary item's sell-in count drops by exactly one a day, as long as
      it does not run below the smallest `int`. */
  lemma {:induction false} SellInCountsDown(name: string, st: Stock, n: nat)
    requires CategoryOf(name) != Legendary && st.sellIn as int - n >= MIN_INT as int
    ensures Days(name, st, n).sellIn as int == st.sellIn as int - n
  {
    if n > 0 {
      SellInCountsDown(name, st, n - 1);
    }
  }

  /** Aged Brie never loses quality, and a standard item never gains any. */
  lemma {:induction false} QualityIsMonotone(name: string, st: Stock, n: nat)
    ensures CategoryOf(name) == Aged ==> Days(name, st, n).quality >= st.quality
    ensures CategoryOf(name) == Standard ==> Days(name, st, n).quality <= st.quality
  {
    if n > 0 {
      QualityIsMonotone(name, st, n - 1);
    }
  }

  /** Once its concert has passed, a backstage pass stays worth nothing on
      every following day. */
  lemma {:induction false} PassStaysWorthless(name: string, st: Stock, n: nat)
    requires CategoryOf(name) == BackstagePass && n >= 1
    requires st.sellIn <= 0 && st.sellIn as int - n >= MIN_INT as int
    ensures Days(name, st, n).quality == 0
  {
    if n > 1 {
      SellInCountsDown(name, st, n - 1);
    }
  }
}
