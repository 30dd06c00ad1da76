# Gilded Rose: the one-day update engine

The Gilded Rose shop keeps an array of items. Each item has a name, a sell-in
count (days left before its sell-by date) and a quality. Once per simulated
day, `GildedRose.updateQuality()` walks the array and changes every item's
`sellIn` and `quality` in place. The rule for an item depends on its category,
and the category is an exact match on the item's name:

- `"Aged Brie"` gains quality as it ages;
- `"Sulfuras, Hand of Ragnaros"` is legendary and never changes;
- `"Backstage passes to a TAFKAL80ETC concert"` gains quality faster as the
  concert approaches and is worth nothing once it has passed;
- every other name is a standard item, which loses quality.

Quality moves only inside [0, 50]. It is never raised above 50 and never pushed
below 0. Past the sell-by date it changes twice as fast.

The project has three modules:

- `ItemRules` (`rules.dfy`) holds the pure rules. `CategoryOf` does the name
  lookup. `Step` gives one day for one item, in the order the engine works:
  first the quality change, judged by the sell-in count before the day, then
  the sell-in decrement, then the expired rule once the count is negative.
  `Days` applies `Step` n times. `Reference` states the same rules in closed
  form, as a delta clamped to [0, 50]. Lemmas cover each category and what
  holds over any number of days.
- `Inventory` (`inventory.dfy`) holds the imperative objects: the class `Item`,
  whose `sellIn` and `quality` fields change in place, and the class
  `GildedRose`, which holds an `array<Item>`. `UpdateQuality` loops over the
  array and updates each element through `UpdateItem`. Both methods are proved
  against `Step`.
- `Scenarios` (`scenarios.dfy`) has one method per JUnit scenario. Each builds
  the items and the shop, calls `UpdateQuality` and reads back the fields the
  scenario checks. Its postcondition is the value the scenario expects.

Java's `int` is modelled as the newtype `int32`. The only arithmetic that can
overflow is the sell-in decrement. `Decrement` writes out the two's-complement
wrap-around at the smallest `int`.

The implementation files `Java/src/main/java/com/gildedrose/GildedRose.java` and
`Item.java` are not part of this model. The rules come from the JUnit scenarios.
Where the scenarios leave a case open, the model follows the design of this
engine:

- Each unit of quality is gained only while quality is below 50 and lost only
  while it is above 0. So a value outside [0, 50] is never corrected. The
  legendary item keeps 80; that case is pinned at
  `GildedRoseTest.java:137-145`.
- For qualities inside [0, 50], this guarded form agrees with the clamp-based
  `Reference`. That is proved in `StepMatchesReference`.

## Model

| member | source | states |
|---|---|---|
| `ItemRules.CategoryOf` | Java/src/test/java/com/gildedrose/GildedRoseTest.java:79-149 | the category is Aged, Legendary or BackstagePass exactly when the name equals the matching literal, and Standard for every other name |
| `ItemRules.Decrement` | Java/src/test/java/com/gildedrose/GildedRoseTest.java:19 | the new sell-in count is the old one minus 1, taken modulo 2^32 as Java's `int` subtraction is |
| `ItemRules.Step` | Java/src/test/java/com/gildedrose/GildedRoseTest.java:10-235 | the legendary item is unchanged; every other item's sell-in count drops by one; a non-legendary quality inside [0, 50] stays inside [0, 50] |
| `ItemRules.Days` | Java/src/test/java/com/gildedrose/GildedRoseTest.java:127-145 | any number of days leaves the legendary item exactly as it was |
| `ItemRules.StepMatchesReference` | Java/src/test/java/com/gildedrose/GildedRoseTest.java:10-235 | for quality in [0, 50], one day equals the closed-form rules: standard -1 and aged +1, both doubled once the decremented sell-in is negative; pass +1/+2/+3 by days left, or 0 after the concert; clamped to [0, 50]; legendary unchanged |
| `ItemRules.StandardItemDegradesByOne` | Java/src/test/java/com/gildedrose/GildedRoseTest.java:47-55 | a standard item with positive sell-in goes to sell-in - 1 and quality - 1, but not below 0 |
| `ItemRules.StandardItemDegradesTwiceAsFastPastSellBy` | Java/src/test/java/com/gildedrose/GildedRoseTest.java:37-45 | a standard item with sell-in <= 0 loses 2 quality, but not below 0 |
| `ItemRules.AgedBrieImproves` | Java/src/test/java/com/gildedrose/GildedRoseTest.java:77-125 | Aged Brie loses a day and gains 1 quality while sell-in > 0 and 2 once sell-in <= 0, capped at 50 |
| `ItemRules.BackstagePassImproves` | Java/src/test/java/com/gildedrose/GildedRoseTest.java:147-225 | before the concert a pass gains 1 with more than 10 days left, 2 with 6 to 10, 3 with 1 to 5, capped at 50 |
| `ItemRules.BackstagePassWorthlessAfterConcert` | Java/src/test/java/com/gildedrose/GildedRoseTest.java:227-235 | a pass with sell-in <= 0 has quality exactly 0 after the update, whatever its quality was |
| `ItemRules.OutOfRangeQualityIsKept` | Java/src/test/java/com/gildedrose/GildedRoseTest.java:137-145 | a quality outside [0, 50] is not corrected: aged at or above 50 keeps its quality, standard at or below 0 keeps its quality |
| `ItemRules.QualityStaysInRange` | Java/src/test/java/com/gildedrose/GildedRoseTest.java:67-105 | a non-legendary item that starts in [0, 50] stays in [0, 50] after any number of days |
| `ItemRules.SellInCountsDown` | Java/src/test/java/com/gildedrose/GildedRoseTest.java:10-21 | a non-legendary item's sell-in count is exactly n lower after n days, while no wrap-around occurs |
| `ItemRules.QualityIsMonotone` | Java/src/test/java/com/gildedrose/GildedRoseTest.java:57-125 | over any number of days Aged Brie never loses quality and a standard item never gains any |
| `ItemRules.PassStaysWorthless` | Java/src/test/java/com/gildedrose/GildedRoseTest.java:227-235 | once its concert has passed, a pass is worth 0 on every later day |
| `Inventory.Item.constructor` | Java/src/test/java/com/gildedrose/GildedRoseTest.java:14 | a new item holds the given name, sell-in count and quality |
| `Inventory.GildedRose.constructor` | Java/src/test/java/com/gildedrose/GildedRoseTest.java:15 | the shop holds the very array it was given, so the caller's items are the ones updated |
| `Inventory.GildedRose.UpdateItem` | Java/src/test/java/com/gildedrose/GildedRoseTest.java:10-235 | the item's fields are changed in place to `Step` of their old values; nothing else changes |
| `Inventory.GildedRose.UpdateQuality` | Java/src/test/java/com/gildedrose/GildedRoseTest.java:23-35 | the array and its references are unchanged; each item advances one day per occurrence in the array; when no item occurs twice, each is exactly `Step` of its old values |
| `Inventory.AdvancedOnce` | Java/src/test/java/com/gildedrose/GildedRoseTest.java:23-35 | in an array without repeated items, each item is advanced by exactly one day |
| `Scenarios.StandardItemQualityDecreasesSellInDecreasesEachDay` | Java/src/test/java/com/gildedrose/GildedRoseTest.java:10-21 | standard 5/7 becomes 4/6 |
| `Scenarios.MultipleItemsDegradeEachDay` | Java/src/test/java/com/gildedrose/GildedRoseTest.java:23-35 | in one call, 5/4 becomes 4/3 and 3/2 becomes 2/1 |
| `Scenarios.ItemQualityDegradesTwiceAsFastPastSellInDate` | Java/src/test/java/com/gildedrose/GildedRoseTest.java:37-45 | standard -1/4 gets quality 2 |
| `Scenarios.ItemQualityDegradesByOneWithOneDayLeft` | Java/src/test/java/com/gildedrose/GildedRoseTest.java:47-55 | standard 1/4 gets quality 3 |
| `Scenarios.ItemQualityDegradesDownToZero` | Java/src/test/java/com/gildedrose/GildedRoseTest.java:57-65 | standard 4/1 gets quality 0 |
| `Scenarios.ItemQualityIsNeverNegative` | Java/src/test/java/com/gildedrose/GildedRoseTest.java:67-75 | standard 4/0 keeps quality 0 |
| `Scenarios.AgedItemsIncreaseInQualityOverTime` | Java/src/test/java/com/gildedrose/GildedRoseTest.java:77-85 | Aged Brie 5/6 gets quality 7 |
| `Scenarios.AgedItemQuality49IncreasesUpTo50` | Java/src/test/java/com/gildedrose/GildedRoseTest.java:87-95 | Aged Brie 5/49 gets quality 50 |
| `Scenarios.QualityOfAnItemIsNeverGreaterThan50` | Java/src/test/java/com/gildedrose/GildedRoseTest.java:97-105 | Aged Brie 5/50 keeps quality 50 |
| `Scenarios.AgedItemQualityIncreasesTwiceAsFastPastSellInDate` | Java/src/test/java/com/gildedrose/GildedRoseTest.java:107-115 | Aged Brie 0/6 gets quality 8 |
| `Scenarios.AgedItemQuality50PastSellInDateDoesNotIncrease` | Java/src/test/java/com/gildedrose/GildedRoseTest.java:117-125 | Aged Brie 0/50 keeps quality 50 |
| `Scenarios.LegendaryItemsNeverHaveToBeSold` | Java/src/test/java/com/gildedrose/GildedRoseTest.java:127-135 | Sulfuras -1/80 keeps sell-in -1 |
| `Scenarios.LegendaryItemsNeverDecreaseInQuality` | Java/src/test/java/com/gildedrose/GildedRoseTest.java:137-145 | Sulfuras -1/80 keeps quality 80 |
| `Scenarios.BackstagePassesIncreaseInQualityAsSellInDateApproaches` | Java/src/test/java/com/gildedrose/GildedRoseTest.java:147-155 | pass 15/20 gets quality 21 |
| `Scenarios.BackstagePassesIncreaseInQualityBy1WhenThereAre11Days` | Java/src/test/java/com/gildedrose/GildedRoseTest.java:157-165 | pass 11/48 gets quality 49 |
| `Scenarios.BackstagePassesIncreaseInQualityBy2WhenThereAre10DaysOrLess` | Java/src/test/java/com/gildedrose/GildedRoseTest.java:167-175 | pass 10/20 gets quality 22 |
| `Scenarios.BackstagePassesQuality49IncreaseUpTo50WhenThereAre10DaysOrLess` | Java/src/test/java/com/gildedrose/GildedRoseTest.java:177-185 | pass 10/49 gets quality 50 |
| `Scenarios.BackstagePassesIncreaseInQualityBy2WhenThereAre6DaysOrLess` | Java/src/test/java/com/gildedrose/GildedRoseTest.java:187-195 | pass 6/46 gets quality 48 |
| `Scenarios.BackstagePassesIncreaseInQualityBy3WhenThereAre5DaysOrLess` | Java/src/test/java/com/gildedrose/GildedRoseTest.java:197-205 | pass 5/20 gets quality 23 |
| `Scenarios.BackstagePassesQuality47IncreaseUpTo50WhenThereAre5DaysOrLess` | Java/src/test/java/com/gildedrose/GildedRoseTest.java:207-215 | pass 5/47 gets quality 50 |
| `Scenarios.BackstagePassesQuality49IncreaseUpTo50WhenThereAre5DaysOrLess` | Java/src/test/java/com/gildedrose/GildedRoseTest.java:217-225 | pass 5/49 gets quality 50 |
| `Scenarios.BackstagePassesQualityIs0AfterConcert` | Java/src/test/java/com/gildedrose/GildedRoseTest.java:227-235 | pass 0/20 gets quality 0 |

## Left out

- The JUnit and AssertJ machinery (`@Test`, `assertThat`). Each scenario is restated as a method of `Scenarios` whose postcondition holds the expected values.
- A driver that runs several days and prints the state. That is I/O outside the engine. `Days` is only a specification function used in the proofs.
- Item categories that no scenario exercises, such as "Conjured" items. There are no rules to model for them.
- Validation or correction of initial values. The engine has none.
- `null`: a null array, a null element or a null name would throw `NullPointerException` in Java. The model uses non-null `array<Item>` and `string`.
- `Item.name` is a `const` field in the model. The Java field is assignable, but the engine never writes it.
- Reassigning the `GildedRose.items` field from outside, and concurrent access to the items. The engine is single-threaded and owns the array for the duration of a call.
- Name matching is exact equality on `seq<char>`. There is no case folding and no trimming, and Java's UTF-16 strings are modelled as plain character sequences.
- ItemRules.StandardItemDegradesTwiceAsFastPastSellBy: assumes the sell-in count stays above the smallest `int`. At that value `Decrement` wraps to the largest `int` and the item does not count as expired; `Step` and `StepMatchesReference` cover that case.
- ItemRules.AgedBrieImproves: assumes the sell-in count stays above the smallest `int`. At that value `Decrement` wraps to the largest `int` and the item does not count as expired; `Step` and `StepMatchesReference` cover that case.
- ItemRules.BackstagePassWorthlessAfterConcert: assumes the sell-in count stays above the smallest `int`. At that value `Decrement` wraps to the largest `int` and the item does not count as expired; `Step` and `StepMatchesReference` cover that case.
- ItemRules.SellInCountsDown: assumes the sell-in count stays above the smallest `int`. At that value `Decrement` wraps to the largest `int` and the item does not count as expired; `Step` and `StepMatchesReference` cover that case.
- ItemRules.PassStaysWorthless: assumes the sell-in count stays above the smallest `int`. At that value `Decrement` wraps to the largest `int` and the item does not count as expired; `Step` and `StepMatchesReference` cover that case.
