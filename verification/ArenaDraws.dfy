/**
 * How a shop's pages are drawn (ArenaItems.cs): each of a page's items is the one whose share of the total weight its
 * roll falls in, among the catalog's items that have a weight in the round and are not on the page yet.
 */
module ArenaDraws {
  import opened ArenaItems

  /** An item's weight in a round: its weight in the first, and what each round after adds; never below zero. */
  ghost function WeightIn(item: Item, round: int): nat {
    var weight := item.startingWeight + (round - 1) * item.weightPerRound;
    if weight <= 0 then 0 else weight
  }

  ghost function Share(left: seq<Item>, round: int): nat {
    if left == [] then 0 else WeightIn(left[0], round) + Share(left[1..], round)
  }

  /** The items that have a weight in a round and are not shown yet, in the catalog's order. */
  ghost function NotShown(items: seq<Item>, round: int, shown: seq<string>): seq<Item> {
    if items == [] then []
    else (if WeightIn(items[0], round) > 0 && items[0].slug !in shown then [items[0]] else [])
         + NotShown(items[1..], round, shown)
  }

  /** The item shown is the one, of those left, whose share the roll falls in. */
  ghost predicate FallsOn(left: seq<Item>, round: int, roll: int, slug: string) {
    exists i :: 0 <= i < |left| && left[i].slug == slug && Share(left[..i], round) <= roll < Share(left[..i + 1], round)
  }

  lemma WeightIs(item: Item, round: int)
    ensures WeightIn(item, round) == item.Weight(round)
  {
  }

  lemma {:induction false} ShareIs(left: seq<Item>, round: int)
    ensures Share(left, round) == Total(left, round)
  {
    if left != [] {
      WeightIs(left[0], round);
      ShareIs(left[1..], round);
    }
  }

  lemma {:induction false} OfferedNotShown(items: seq<Item>, round: int)
    ensures Offered(items, round) == NotShown(items, round, [])
  {
    if items != [] {
      WeightIs(items[0], round);
      OfferedNotShown(items[1..], round);
    }
  }

  lemma {:induction false} NotShownFrom(items: seq<Item>, round: int, shown: seq<string>)
    ensures forall x | x in NotShown(items, round, shown) :: x in items && x.slug !in shown
  {
    if items != [] { NotShownFrom(items[1..], round, shown); }
  }

  lemma {:induction false} NotShownSame(items: seq<Item>, round: int, shown: seq<string>, slug: string)
    requires forall x | x in items :: x.slug != slug
    ensures NotShown(items, round, shown + [slug]) == NotShown(items, round, shown)
  {
    if items != [] {
      assert items[0] in items;
      NotShownSame(items[1..], round, shown, slug);
    }
  }

  /** Once an item is shown, the others are left. */
  lemma {:induction false} NotShownLess(items: seq<Item>, round: int, shown: seq<string>, i: nat)
    requires DistinctSlugs(items) && i < |NotShown(items, round, shown)|
    ensures var left := NotShown(items, round, shown);
      NotShown(items, round, shown + [left[i].slug]) == Without(left, i)
  {
    hide WeightIn, DistinctSlugs;
    var left, rest := NotShown(items, round, shown), NotShown(items[1..], round, shown);
    var head := if WeightIn(items[0], round) > 0 && items[0].slug !in shown then [items[0]] else [];
    assert left == head + rest;
    HeadDistinct(items);
    if i < |head| {
      NotShownSame(items[1..], round, shown, items[0].slug);
      assert Without(left, i) == rest;
    } else {
      var slug := rest[i - |head|].slug;
      NotShownFrom(items[1..], round, shown);
      assert rest[i - |head|] in rest;
      NotShownLess(items[1..], round, shown, i - |head|);
      StillHead(items[0], round, shown, slug);
      WithoutTail(head, rest, i);
    }
  }

  lemma HeadDistinct(items: seq<Item>)
    requires DistinctSlugs(items) && items != []
    ensures DistinctSlugs(items[1..]) && forall x | x in items[1..] :: x.slug != items[0].slug
  {
  }

  lemma StillHead(item: Item, round: int, shown: seq<string>, slug: string)
    requires item.slug != slug
    ensures item.slug in shown + [slug] <==> item.slug in shown
  {
  }

  lemma WithoutTail(head: seq<Item>, rest: seq<Item>, i: nat)
    requires |head| <= i < |head| + |rest|
    ensures Without(head + rest, i) == head + Without(rest, i - |head|)
  {
  }

  lemma WalkFallsOn(left: seq<Item>, round: int, roll: nat)
    requires roll < Total(left, round)
    ensures Total(left, round) == Share(left, round) && FallsOn(left, round, roll, left[Walk(left, round, roll)].slug)
  {
    hide Total, Share;
    var i := Walk(left, round, roll);
    ShareIs(left, round);
    ShareIs(left[..i], round);
    ShareIs(left[..i + 1], round);
  }

  lemma {:induction false} PageDrawnFrom(items: seq<Item>, round: int, perPage: nat, p: nat, shown: seq<string>,
    dice: Dice, j: nat)
    requires DistinctSlugs(items) && FairDice(dice) && |shown| <= perPage
    requires AllPositive(NotShown(items, round, shown), round)
    requires j < |Page(NotShown(items, round, shown), round, perPage, p, |shown|, dice)|
    ensures var page := Page(NotShown(items, round, shown), round, perPage, p, |shown|, dice);
      var left := NotShown(items, round, shown + page[..j]);
      FallsOn(left, round, dice(p, |shown| + j, Share(left, round)), page[j])
    decreases perPage - |shown|
  {
    hide Walk, Total, Without, AllPositive, FairDice, Share, DistinctSlugs, FallsOn, NotShown;
    var left := NotShown(items, round, shown);
    var page := Page(left, round, perPage, p, |shown|, dice);
    PageStep(left, round, perPage, p, |shown|, dice, []);
    var i := Walk(left, round, dice(p, |shown|, Total(left, round)));
    NotShownLess(items, round, shown, i);
    var rest := Page(Without(left, i), round, perPage, p, |shown| + 1, dice);
    assert page == [left[i].slug] + rest;
    if j == 0 {
      assert shown + page[..0] == shown;
      WalkFallsOn(left, round, dice(p, |shown|, Total(left, round)));
    } else {
      PageDrawnFrom(items, round, perPage, p, shown + [left[i].slug], dice, j - 1);
      assert page[..j] == [left[i].slug] + rest[..j - 1];
      assert shown + page[..j] == (shown + [left[i].slug]) + rest[..j - 1];
    }
  }

  /** Every item of every page a round's shop shows was drawn so. */
  lemma PagesDrawn(items: seq<Item>, round: int, pages: nat, perPage: nat, dice: Dice, p: nat, k: nat)
    requires Catalog(items) && FairDice(dice) && p < pages && k < |PagesOf(items, round, pages, perPage, dice)[p]|
    ensures var page := PagesOf(items, round, pages, perPage, dice)[p];
      var left := NotShown(items, round, page[..k]);
      FallsOn(left, round, dice(p, k, Share(left, round)), page[k])
  {
    hide Page, FairDice, FallsOn;
    OfferedNotShown(items, round);
    var page := PagesOf(items, round, pages, perPage, dice)[p];
    PageDrawnFrom(items, round, perPage, p, [], dice, k);
    assert [] + page[..k] == page[..k];
  }
}
