/** The JUnit scenarios of the Gilded Rose, one method each: build the items,
    build the shop over an array of them, advance one day, and read back the
    fields the scenario inspects.  The out-parameters are those fields and the
    postcondition is the value the scenario expects of them. */
module Scenarios {
  import opened ItemRules
  import opened Inventory

  method StandardItemQualityDecreasesSellInDecreasesEachDay() returns (sellIn: int32, quality: int32)
    ensures sellIn == 4 && quality == 6
  {
    var item := new Item("Elixir of the Mongoose", 5, 7);
    var items := new Item[][item];
    assert items[..] == [item] && Distinct(items[..]);
    var subject := new GildedRose(items);
    subject.UpdateQuality();
    assert items[0].Current() == Step(item.name, 5, 7);
    sellIn, quality := item.sellIn, item.quality;
  }

  method MultipleItemsDegradeEachDay() returns (firstSellIn: int32, firstQuality: int32, secondSellIn: int32, secondQuality: int32)
    ensures firstSellIn == 4 && firstQuality == 3 && secondSellIn == 2 && secondQuality == 1
  {
    var first := new Item("First Standard Item", 5, 4);
    var second := new Item("Second Standard Item", 3, 2);
    var items := new Item[][first, second];
    assert items[..] == [first, second] && Distinct(items[..]);
    var subject := new GildedRose(items);
    subject.UpdateQuality();
    assert items[0].Current() == Step(first.name, 5, 4);
    assert items[1].Current() == Step(second.name, 3, 2);
    firstSellIn, firstQuality, secondSellIn, secondQuality := first.sellIn, first.quality, second.sellIn, second.quality;
  }

  method ItemQualityDegradesTwiceAsFastPastSellInDate() returns (quality: int32)
    ensures quality == 2
  {
    var item := new Item("Standard Item", -1, 4);
    var items := new Item[][item];
    assert items[..] == [item] && Distinct(items[..]);
    var subject := new GildedRose(items);
    subject.UpdateQuality();
    assert items[0].Current() == Step(item.name, -1, 4);
    quality := item.quality;
  }

  method ItemQualityDegradesByOneWithOneDayLeft() returns (quality: int32)
    ensures quality == 3
  {
    var item := new Item("Standard Item", 1, 4);
    var items := new Item[][item];
    assert items[..] == [item] && Distinct(items[..]);
    var subject := new GildedRose(items);
    subject.UpdateQuality();
    assert items[0].Current() == Step(item.name, 1, 4);
    quality := item.quality;
  }

  method ItemQualityDegradesDownToZero() returns (quality: int32)
    ensures quality == 0
  {
    var item := new Item("Standard Item", 4, 1);
    var items := new Item[][item];
    assert items[..] == [item] && Distinct(items[..]);
    var subject := new GildedRose(items);
    subject.UpdateQuality();
    assert items[0].Current() == Step(item.name, 4, 1);
    quality := item.quality;
  }

  method ItemQualityIsNeverNegative() returns (quality: int32)
    ensures quality == 0
  {
    var item := new Item("First Standard Item", 4, 0);
    var items := new Item[][item];
    assert items[..] == [item] && Distinct(items[..]);
    var subject := new GildedRose(items);
    subject.UpdateQuality();
    assert items[0].Current() == Step(item.name, 4, 0);
    quality := item.quality;
  }

  method AgedItemsIncreaseInQualityOverTime() returns (quality: int32)
    ensures quality == 7
  {
    var item := new Item("Aged Brie", 5, 6);
    var items := new Item[][item];
    assert items[..] == [item] && Distinct(items[..]);
    var subject := new GildedRose(items);
    subject.UpdateQuality();
    assert items[0].Current() == Step(item.name, 5, 6);
    quality := item.quality;
  }

  method AgedItemQuality49IncreasesUpTo50() returns (quality: int32)
    ensures quality == 50
  {
    var item := new Item("Aged Brie", 5, 49);
    var items := new Item[][item];
    assert items[..] == [item] && Distinct(items[..]);
    var subject := new GildedRose(items);
    subject.UpdateQuality();
    assert items[0].Current() == Step(item.name, 5, 49);
    quality := item.quality;
  }

  method QualityOfAnItemIsNeverGreaterThan50() returns (quality: int32)
    ensures quality == 50
  {
    var item := new Item("Aged Brie", 5, 50);
    var items := new Item[][item];
    assert items[..] == [item] && Distinct(items[..]);
    var subject := new GildedRose(items);
    subject.UpdateQuality();
    assert items[0].Current() == Step(item.name, 5, 50);
    quality := item.quality;
  }

  method AgedItemQualityIncreasesTwiceAsFastPastSellInDate() returns (quality: int32)
    ensures quality == 8
  {
    var item := new Item("Aged Brie", 0, 6);
    var items := new Item[][item];
    assert items[..] == [item] && Distinct(items[..]);
    var subject := new GildedRose(items);
    subject.UpdateQuality();
    assert items[0].Current() == Step(item.name, 0, 6);
    quality := item.quality;
  }

  method AgedItemQuality50PastSellInDateDoesNotIncrease() returns (quality: int32)
    ensures quality == 50
  {
    var item := new Item("Aged Brie", 0, 50);
    var items := new Item[][item];
    assert items[..] == [item] && Distinct(items[..]);
    var subject := new GildedRose(items);
    subject.UpdateQuality();
    assert items[0].Current() == Step(item.name, 0, 50);
    quality := item.quality;
  }

  method LegendaryItemsNeverHaveToBeSold() returns (sellIn: int32)
    ensures sellIn == -1
  {
    var item := new Item("Sulfuras, Hand of Ragnaros", -1, 80);
    var items := new Item[][item];
    assert items[..] == [item] && Distinct(items[..]);
    var subject := new GildedRose(items);
    subject.UpdateQuality();
    assert items[0].Current() == Step(item.name, -1, 80);
    sellIn := item.sellIn;
  }

  method LegendaryItemsNeverDecreaseInQuality() returns (quality: int32)
    ensures quality == 80
  {
    var item := new Item("Sulfuras, Hand of Ragnaros", -1, 80);
    var items := new Item[][item];
    assert items[..] == [item] && Distinct(items[..]);
    var subject := new GildedRose(items);
    subject.UpdateQuality();
    assert items[0].Current() == Step(item.name, -1, 80);
    quality := item.quality;
  }

  method BackstagePassesIncreaseInQualityAsSellInDateApproaches() returns (quality: int32)
    ensures quality == 21
  {
    var item := new Item("Backstage passes to a TAFKAL80ETC concert", 15, 20);
    var items := new Item[][item];
    assert items[..] == [item] && Distinct(items[..]);
    var subject := new GildedRose(items);
    subject.UpdateQuality();
    assert items[0].Current() == Step(item.name, 15, 20);
    quality := item.quality;
  }

  method BackstagePassesIncreaseInQualityBy1WhenThereAre11Days() returns (quality: int32)
    ensures quality == 49
  {
    var item := new Item("Backstage passes to a TAFKAL80ETC concert", 11, 48);
    var items := new Item[][item];
    assert items[..] == [item] && Distinct(items[..]);
    var subject := new GildedRose(items);
    subject.UpdateQuality();
    assert items[0].Current() == Step(item.name, 11, 48);
    quality := item.quality;
  }

  method BackstagePassesIncreaseInQualityBy2WhenThereAre10DaysOrLess() returns (quality: int32)
    ensures quality == 22
  {
    var item := new Item("Backstage passes to a TAFKAL80ETC concert", 10, 20);
    var items := new Item[][item];
    assert items[..] == [item] && Distinct(items[..]);
    var subject := new GildedRose(items);
    subject.UpdateQuality();
    assert items[0].Current() == Step(item.name, 10, 20);
    quality := item.quality;
  }

  method BackstagePassesQuality49IncreaseUpTo50WhenThereAre10DaysOrLess() returns (quality: int32)
    ensures quality == 50
  {
    var item := new Item("Backstage passes to a TAFKAL80ETC concert", 10, 49);
    var items := new Item[][item];
    assert items[..] == [item] && Distinct(items[..]);
    var subject := new GildedRose(items);
    subject.UpdateQuality();
    assert items[0].Current() == Step(item.name, 10, 49);
    quality := item.quality;
  }

  method BackstagePassesIncreaseInQualityBy2WhenThereAre6DaysOrLess() returns (quality: int32)
    ensures quality == 48
  {
    var item := new Item("Backstage passes to a TAFKAL80ETC concert", 6, 46);
    var items := new Item[][item];
    assert items[..] == [item] && Distinct(items[..]);
    var subject := new GildedRose(items);
    subject.UpdateQuality();
    assert items[0].Current() == Step(item.name, 6, 46);
    quality := item.quality;
  }

  method BackstagePassesIncreaseInQualityBy3WhenThereAre5DaysOrLess() returns (quality: int32)
    ensures quality == 23
  {
    var item := new Item("Backstage passes to a TAFKAL80ETC concert", 5, 20);
    var items := new Item[][item];
    assert items[..] == [item] && Distinct(items[..]);
    var subject := new GildedRose(items);
    subject.UpdateQuality();
    assert items[0].Current() == Step(item.name, 5, 20);
    quality := item.quality;
  }

  method BackstagePassesQuality47IncreaseUpTo50WhenThereAre5DaysOrLess() returns (quality: int32)
    ensures quality == 50
  {
    var item := new Item("Backstage passes to a TAFKAL80ETC concert", 5, 47);
    var items := new Item[][item];
    assert items[..] == [item] && Distinct(items[..]);
    var subject := new GildedRose(items);
    subject.UpdateQuality();
    assert items[0].Current() == Step(item.name, 5, 47);
    quality := item.quality;
  }

  method BackstagePassesQuality49IncreaseUpTo50WhenThereAre5DaysOrLess() returns (quality: int32)
    ensures quality == 50
  {
    var item := new Item("Backstage passes to a TAFKAL80ETC concert", 5, 49);
    var items := new Item[][item];
    assert items[..] == [item] && Distinct(items[..]);
    var subject := new GildedRose(items);
    subject.UpdateQuality();
    assert items[0].Current() == Step(item.name, 5, 49);
    quality := item.quality;
  }

  method BackstagePassesQualityIs0AfterConcert() returns (quality: int32)
    ensures quality == 0
  {
    var item := new Item("Backstage passes to a TAFKAL80ETC concert", 0, 20);
    var items := new Item[][item];
    assert items[..] == [item] && Distinct(items[..]);
    var subject := new GildedRose(items);
    subject.UpdateQuality();
    assert items[0].Current() == Step(item.name, 0, 20);
    quality := item.quality;
  }
}
