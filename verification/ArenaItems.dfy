/** The Arena shop's catalog and the pages a round's shop offers (ArenaItems.cs). */
module ArenaItems {
  import opened Options

  datatype Item = Item(slug: string, startingWeight: int, weightPerRound: int, cost: int) {
    /** Its shop weight in a round. */
    function Weight(round: int): nat {
      var w := startingWeight + weightPerRound * (round - 1);
      if w < 0 then 0 else w
    }
  }

  /** A catalog names each item once, and an empty inventory slot is never an item. */
  ghost predicate Catalog(items: seq<Item>) {
    && (forall i, j | 0 <= i < j < |items| :: items[i].slug != items[j].slug)
    && (forall i | 0 <= i < |items| :: items[i].slug != "" && 0 <= items[i].cost)
  }

  /** The item a slug names, if any: the first one. */
  function Of(items: seq<Item>, slug: string): (r: Option<Item>)
    ensures r.Some? ==> r.value in items && r.value.slug == slug
    ensures r.None? ==> forall i | i in items :: i.slug != slug
  {
    if items == [] then None
    else if items[0].slug == slug then Some(items[0])
    else Of(items[1..], slug)
  }

  /** The items offered in a round: those with a positive weight, in catalog order. */
  function Offered(items: seq<Item>, round: int): (r: seq<Item>)
    ensures forall i :: i in r <==> i in items && 0 < i.Weight(round)
  {
    if items == [] then []
    else if 0 < items[0].Weight(round) then [items[0]] + Offered(items[1..], round)
    else Offered(items[1..], round)
  }

  function Total(left: seq<Item>, round: int): nat {
    if left == [] then 0 else left[0].Weight(round) + Total(left[1..], round)
  }

  /** The place a roll falls on: where it first drops below zero as each item's weight is taken from it. */
  function Walk(left: seq<Item>, round: int, roll: nat): (i: nat)
    requires roll < Total(left, round)
    ensures i < |left| && 0 < left[i].Weight(round)
    ensures Total(left[..i], round) <= roll < Total(left[..i + 1], round)
  {
    if roll < left[0].Weight(round) then
      assert left[..1] == [left[0]];
      0
    else
      var i := 1 + Walk(left[1..], round, roll - left[0].Weight(round));
      assert left[..i] == [left[0]] + left[1..][..i - 1];
      assert left[..i + 1] == [left[0]] + left[1..][..i];
      i
  }

  function Without(left: seq<Item>, i: nat): (r: seq<Item>)
    requires i < |left|
    ensures |r| == |left| - 1
    ensures forall x | x in r :: x in left
  {
    left[..i] + left[i + 1..]
  }

  /** Random draws for one player's shop: for a page and a place on it, a number below the total given. */
  type Dice = (nat, nat, nat) -> nat

  ghost predicate FairDice(dice: Dice) {
    forall p: nat, k: nat, total: nat :: 0 < total ==> dice(p, k, total) < total
  }

  ghost predicate AllPositive(left: seq<Item>, round: int) {
    forall i | i in left :: 0 < i.Weight(round)
  }

  /** What one page shows from its place k on, drawn without replacement. */
  function Page(left: seq<Item>, round: int, perPage: nat, p: nat, k: nat, dice: Dice): seq<string>
    requires k <= perPage && FairDice(dice) && AllPositive(left, round)
    decreases perPage - k
  {
    if k == perPage || left == [] then []
    else
      var i := Walk(left, round, dice(p, k, Total(left, round)));
      [left[i].slug] + Page(Without(left, i), round, perPage, p, k + 1, dice)
  }

  function PagesOf(items: seq<Item>, round: int, pages: nat, perPage: nat, dice: Dice): seq<seq<string>>
    requires FairDice(dice)
  {
    seq(pages, p requires 0 <= p < pages => Page(Offered(items, round), round, perPage, p, 0, dice))
  }

  /** The place a roll falls on, found as the roll is lowered by each item's weight until it is below zero. */
  method Pick(left: seq<Item>, round: int, rolled: nat) returns (i: nat)
    requires rolled < Total(left, round)
    ensures i == Walk(left, round, rolled)
  {
    i := 0;
    var roll: int := rolled - left[0].Weight(round);
    assert left[..1] == [left[0]];
    while roll >= 0
      invariant i < |left| && roll == rolled - Total(left[..i + 1], round)
      invariant Total(left[..i], round) <= rolled
      decreases |left| - i
    {
      TotalStep(left, round, i + 1);
      i := i + 1;
      roll := roll - left[i].Weight(round);
    }
    WalkIs(left, round, rolled, i);
  }

  lemma PageStep(left: seq<Item>, round: int, perPage: nat, p: nat, k: nat, dice: Dice, page: seq<string>)
    requires k < perPage && FairDice(dice) && AllPositive(left, round) && left != []
    ensures dice(p, k, Total(left, round)) < Total(left, round)
    ensures AllPositive(Without(left, Walk(left, round, dice(p, k, Total(left, round)))), round)
    ensures var i := Walk(left, round, dice(p, k, Total(left, round)));
      page + Page(left, round, perPage, p, k, dice)
        == (page + [left[i].slug]) + Page(Without(left, i), round, perPage, p, k + 1, dice)
  {
  }

  lemma PageDone(left: seq<Item>, round: int, perPage: nat, p: nat, k: nat, dice: Dice)
    requires k <= perPage && FairDice(dice) && AllPositive(left, round) && (k == perPage || left == [])
    ensures Page(left, round, perPage, p, k, dice) == []
  {
  }

  lemma OfferedPositive(items: seq<Item>, round: int)
    ensures AllPositive(Offered(items, round), round)
  {
  }

  /** The draw itself: items leave the list as they are picked, and the roll is lowered until it falls below zero. */
  method Pages(items: seq<Item>, round: int, pages: nat, perPage: nat, dice: Dice) returns (result: seq<seq<string>>)
    requires FairDice(dice)
    ensures result == PagesOf(items, round, pages, perPage, dice)
  {
    hide Page, Walk, Total, Without, AllPositive, FairDice, Offered;
    var offered := Offered(items, round);
    OfferedPositive(items, round);
    result := [];
    for p := 0 to pages
      invariant |result| == p
      invariant forall q | 0 <= q < p :: result[q] == Page(offered, round, perPage, q, 0, dice)
    {
      var page: seq<string> := [];
      var left := offered;
      while |page| < perPage && |left| > 0
        invariant |page| <= perPage && AllPositive(left, round) && AllPositive(offered, round)
        invariant page + Page(left, round, perPage, p, |page|, dice) == Page(offered, round, perPage, p, 0, dice)
        decreases |left|
      {
        PageStep(left, round, perPage, p, |page|, dice, page);
        var i := Pick(left, round, dice(p, |page|, Total(left, round)));
        page := page + [left[i].slug];
        left := Without(left, i);
      }
      PageDone(left, round, perPage, p, |page|, dice);
      assert page + [] == page;
      result := result + [page];
    }
  }

  lemma {:induction false} TotalStep(left: seq<Item>, round: int, i: nat)
    requires i <= |left|
    ensures i < |left| ==> Total(left[..i + 1], round) == Total(left[..i], round) + left[i].Weight(round)
    ensures Total(left[..i], round) <= Total(left, round)
    ensures i == |left| ==> left[..i] == left
  {
    if left == [] || i == 0 {
      if left != [] { assert left[..1] == [left[0]]; }
    } else {
      TotalStep(left[1..], round, i - 1);
      assert left[..i] == [left[0]] + left[1..][..i - 1];
      if i < |left| { assert left[..i + 1] == [left[0]] + left[1..][..i]; }
    }
  }

  /** Each roll falls on one place only: the one whose share of the total holds it. */
  lemma {:induction false} WalkIs(left: seq<Item>, round: int, roll: nat, i: nat)
    requires i < |left| && Total(left[..i], round) <= roll < Total(left[..i + 1], round)
    ensures roll < Total(left, round) && Walk(left, round, roll) == i
  {
    TotalStep(left, round, i + 1);
    var w := Walk(left, round, roll);
    if w < i { TotalRises(left, round, w + 1, i); }
    if i < w { TotalRises(left, round, i + 1, w); }
  }

  lemma {:induction false} TotalRises(left: seq<Item>, round: int, i: nat, j: nat)
    requires i <= j <= |left|
    ensures Total(left[..i], round) <= Total(left[..j], round)
  {
    TotalStep(left[..j], round, i);
    assert left[..j][..i] == left[..i];
  }

  lemma WalkFalls(left: seq<Item>, round: int, roll: nat)
    requires roll < Total(left, round)
    ensures var i := Walk(left, round, roll); Total(left[..i], round) <= roll < Total(left[..i + 1], round)
  {
  }

  function Rolls(left: seq<Item>, round: int, i: nat): set<int> {
    set roll | 0 <= roll < Total(left, round) && Walk(left, round, roll) == i
  }

  /** Of the rolls there are, exactly an item's weight fall on it. */
  lemma RollsPerItem(left: seq<Item>, round: int, i: nat)
    requires i < |left|
    ensures |Rolls(left, round, i)| == left[i].Weight(round)
  {
    var lo, hi := Total(left[..i], round), Total(left[..i + 1], round);
    TotalStep(left, round, i);
    TotalStep(left, round, i + 1);
    forall roll ensures roll in Rolls(left, round, i) <==> lo <= roll < hi {
      if lo <= roll < hi { WalkIs(left, round, roll, i); }
      if roll in Rolls(left, round, i) { WalkFalls(left, round, roll); }
    }
    assert Rolls(left, round, i) == Range(lo, hi);
  }

  function Range(lo: int, hi: int): (r: set<int>)
    requires lo <= hi
    ensures |r| == hi - lo
    ensures forall x :: x in r <==> lo <= x < hi
    decreases hi - lo
  {
    if lo == hi then {} else Range(lo, hi - 1) + {hi - 1}
  }

  ghost predicate DistinctSlugs(left: seq<Item>) {
    forall i, j | 0 <= i < j < |left| :: left[i].slug != left[j].slug
  }

  ghost predicate Different(page: seq<string>) {
    forall a, b | 0 <= a < b < |page| :: page[a] != page[b]
  }

  lemma AddDifferent(x: string, tail: seq<string>)
    requires Different(tail) && x !in tail
    ensures Different([x] + tail)
  {
    var page := [x] + tail;
    forall a, b | 0 <= a < b < |page| ensures page[a] != page[b] {
      assert page[b] == tail[b - 1] && tail[b - 1] in tail;
      if a > 0 { assert page[a] == tail[a - 1]; }
    }
  }

  ghost predicate Names(left: seq<Item>, slug: string) {
    exists i :: i in left && i.slug == slug
  }

  /** A page is as full as it can be. */
  lemma {:induction false} PageSize(left: seq<Item>, round: int, perPage: nat, p: nat, k: nat, dice: Dice)
    requires k <= perPage && FairDice(dice) && AllPositive(left, round)
    ensures |Page(left, round, perPage, p, k, dice)| == if perPage - k < |left| then perPage - k else |left|
    decreases perPage - k
  {
    hide Walk, Total, AllPositive, FairDice;
    if k != perPage && left != [] {
      PageStep(left, round, perPage, p, k, dice, []);
      var i := Walk(left, round, dice(p, k, Total(left, round)));
      PageSize(Without(left, i), round, perPage, p, k + 1, dice);
    }
  }

  /** It shows items of the list it is drawn from. */
  lemma {:induction false} PageNames(left: seq<Item>, round: int, perPage: nat, p: nat, k: nat, dice: Dice, x: string)
    requires k <= perPage && FairDice(dice) && AllPositive(left, round)
    requires x in Page(left, round, perPage, p, k, dice)
    ensures Names(left, x)
    decreases perPage - k
  {
    var i := Walk(left, round, dice(p, k, Total(left, round)));
    assert left[i] in left;
    if x != left[i].slug {
      PageNames(Without(left, i), round, perPage, p, k + 1, dice, x);
    }
  }

  /** It never shows an item twice. */
  lemma {:induction false} PageDistinct(left: seq<Item>, round: int, perPage: nat, p: nat, k: nat, dice: Dice)
    requires k <= perPage && FairDice(dice) && AllPositive(left, round) && DistinctSlugs(left)
    ensures Different(Page(left, round, perPage, p, k, dice))
    decreases perPage - k
  {
    if k != perPage && left != [] {
      var i := Walk(left, round, dice(p, k, Total(left, round)));
      var rest := Without(left, i);
      WithoutDistinct(left, i);
      PageDistinct(rest, round, perPage, p, k + 1, dice);
      var tail := Page(rest, round, perPage, p, k + 1, dice);
      forall x | x in tail ensures x != left[i].slug {
        PageNames(rest, round, perPage, p, k + 1, dice, x);
      }
      AddDifferent(left[i].slug, tail);
      assert Page(left, round, perPage, p, k, dice) == [left[i].slug] + tail;
    }
  }

  lemma WithoutDistinct(left: seq<Item>, i: nat)
    requires i < |left| && DistinctSlugs(left)
    ensures DistinctSlugs(Without(left, i))
    ensures forall x | x in Without(left, i) :: x.slug != left[i].slug
  {
    var rest := Without(left, i);
    forall a | 0 <= a < |rest| ensures rest[a] == left[if a < i then a else a + 1] {}
  }

  lemma {:induction false} OfferedDistinct(items: seq<Item>, round: int)
    requires DistinctSlugs(items)
    ensures DistinctSlugs(Offered(items, round))
  {
    if items != [] {
      OfferedDistinct(items[1..], round);
      var rest := Offered(items[1..], round);
      forall j | 0 <= j < |rest| ensures rest[j].slug != items[0].slug {
        assert rest[j] in items[1..];
        var a :| 0 <= a < |items[1..]| && items[1..][a] == rest[j];
        assert items[a + 1] == rest[j];
      }
    }
  }

  /**
   * Every page of a round's shop: min(perPage, offered) different items of the catalog, all with a weight this round.
   */
  lemma PagesShow(items: seq<Item>, round: int, pages: nat, perPage: nat, dice: Dice, p: nat)
    requires Catalog(items) && FairDice(dice) && p < pages
    ensures var page := PagesOf(items, round, pages, perPage, dice)[p];
      && |page| == (if perPage < |Offered(items, round)| then perPage else |Offered(items, round)|)
      && Different(page)
      && (forall x | x in page :: exists i :: i in items && i.slug == x && 0 < i.Weight(round))
  {
    OfferedDistinct(items, round);
    var offered := Offered(items, round);
    PageSize(offered, round, perPage, p, 0, dice);
    PageDistinct(offered, round, perPage, p, 0, dice);
    forall x | x in Page(offered, round, perPage, p, 0, dice) ensures Names(offered, x) {
      PageNames(offered, round, perPage, p, 0, dice, x);
    }
  }

  /** A shown slug is always a purchasable item. */
  lemma {:induction false} OfFinds(items: seq<Item>, i: nat)
    requires Catalog(items) && i < |items|
    ensures Of(items, items[i].slug) == Some(items[i])
  {
    if i > 0 {
      assert items[0].slug != items[i].slug;
      OfFinds(items[1..], i - 1);
    }
  }
}
