/**
 * What each of a shop's transactions leaves a player (ArenaRun.cs, lines 305-329 and 613-659), slot by slot, and that a
 * closing shop settles its rerolls and then all its transactions, in order.
 */
module ArenaTrades {
  import opened ArenaItems
  import opened ArenaTypes
  import opened ArenaShop
  import opened ArenaCalls

  // ---- One transaction ----

  /**
   * A purchase of this item, into this slot: it is on the page asked for, it can be paid, and it raises the slot that
   * holds it, unless at the top, or fills the first empty one if none does.
   */
  ghost predicate Takes(setup: Setup, player: Player, page: int, index: int, item: Item, i: int) {
    && 0 <= page < |player.shopPages| && 0 <= index < |player.shopPages[page]|
    && item in setup.items && item.slug == player.shopPages[page][index] && item.cost <= player.coins
    && 0 <= i < |player.inventory|
    && (if player.inventory[i].slug == item.slug then player.inventory[i].level < |setup.rules.itemXpPerLevel|
        else
          && player.inventory[i].slug == ""
          && (forall o | o in player.inventory :: o.slug != item.slug)
          && (forall j | 0 <= j < i :: player.inventory[j].slug != ""))
  }

  /** One copy more in its slot: paid for, half of it to be paid back, and a level up at enough experience. */
  ghost function Took(setup: Setup, player: Player, item: Item, i: nat): Player
    requires i < |player.inventory| && Stocked(setup, player.inventory)
    requires player.inventory[i].slug == item.slug ==> player.inventory[i].level < |setup.rules.itemXpPerLevel|
    requires item.slug != ""
  {
    var o := player.inventory[i];
    var slot :=
      if o.slug != item.slug then OwnedItem(item.slug, 1, 0, item.cost / 2)
      else if o.xp + 1 >= setup.rules.itemXpPerLevel[o.level]
      then OwnedItem(o.slug, o.level + 1, 0, o.sellValue + item.cost / 2)
      else OwnedItem(o.slug, o.level, o.xp + 1, o.sellValue + item.cost / 2);
    player.(coins := player.coins - item.cost, inventory := player.inventory[i := slot])
  }

  lemma OnlySlot(setup: Setup, player: Player, item: Item, i: int)
    requires Stocked(setup, player.inventory) && item.slug != "" && 0 <= i < |player.inventory|
    requires player.inventory[i].slug == item.slug
    ensures FindSlot(player.inventory, item.slug) == i
  {
  }

  lemma BuyTakes(setup: Setup, player: Player, page: int, index: int, item: Item, i: int)
    requires Ready(setup) && Stocked(setup, player.inventory) && Takes(setup, player, page, index, item, i)
    ensures item.slug != "" && Buy(setup, player, page, index) == Took(setup, player, item, i)
  {
    hide Stocked, Held;
    OfCatalog(setup.items, item);
    if player.inventory[i].slug == item.slug {
      OnlySlot(setup, player, item, i);
    } else {
      FirstEmpty(player.inventory, item.slug, i);
    }
  }

  lemma FirstEmpty(inventory: seq<OwnedItem>, slug: string, i: nat)
    requires i < |inventory| && inventory[i].slug == "" && (forall o | o in inventory :: o.slug != slug)
    requires forall j | 0 <= j < i :: inventory[j].slug != ""
    ensures FindSlot(inventory, slug) == |inventory| && FindSlot(inventory, "") == i
  {
  }

  /** Nothing is bought otherwise. */
  lemma BuyNothing(setup: Setup, player: Player, page: int, index: int)
    requires Ready(setup) && Stocked(setup, player.inventory)
    requires forall item, i :: !Takes(setup, player, page, index, item, i)
    ensures Buy(setup, player, page, index) == player
  {
    var payable := Payable(setup, player, page, index);
    if payable.Some? {
      var item := payable.value;
      var i, free := FindSlot(player.inventory, item.slug), FindSlot(player.inventory, "");
      assert !Takes(setup, player, page, index, item, i);
      assert !Takes(setup, player, page, index, item, free);
    }
  }

  /** What a transaction leaves: the purchase it makes, if any; the slot it sells emptied, and paid. */
  ghost predicate Traded(setup: Setup, before: Player, t: Transaction, after: Player) {
    if t.purchase then
      && (forall item, i | Takes(setup, before, t.page, t.index, item, i) ::
            item.slug != "" && Stocked(setup, before.inventory) && after == Took(setup, before, item, i))
      && ((forall item, i :: !Takes(setup, before, t.page, t.index, item, i)) ==> after == before)
    else if 0 <= t.index < |before.inventory| && before.inventory[t.index].slug != "" then
      after == before.(coins := before.coins + before.inventory[t.index].sellValue,
                       inventory := before.inventory[t.index := OwnedItem("", 0, 0, 0)])
    else after == before
  }

  lemma TransactTrades(setup: Setup, player: Player, t: Transaction)
    requires Ready(setup) && Stocked(setup, player.inventory)
    ensures Traded(setup, player, t, Transact(setup, player, t))
  {
    hide Buy, Ready, Held;
    if t.purchase {
      forall item, i | Takes(setup, player, t.page, t.index, item, i)
        ensures item.slug != "" && Buy(setup, player, t.page, t.index) == Took(setup, player, item, i)
      {
        BuyTakes(setup, player, t.page, t.index, item, i);
      }
      if forall item, i :: !Takes(setup, player, t.page, t.index, item, i) {
        BuyNothing(setup, player, t.page, t.index);
      }
    }
  }

  // ---- A shop closed ----

  lemma {:induction false} TransactInOrder(setup: Setup, player: Player, ts: seq<Transaction>)
    returns (steps: seq<Player>)
    requires Ready(setup) && Stocked(setup, player.inventory) && 0 <= player.coins
    ensures |steps| == |ts| + 1 && steps[0] == player && steps[|ts|] == TransactAll(setup, player, ts)
    ensures forall k | 0 <= k < |ts| :: Traded(setup, steps[k], ts[k], steps[k + 1])
    decreases |ts|
  {
    hide Ready, Stocked, Traded, Transact;
    steps := [player];
    if ts != [] {
      TransactKeeps(setup, player, ts[0]);
      TransactTrades(setup, player, ts[0]);
      var rest := TransactInOrder(setup, Transact(setup, player, ts[0]), ts[1..]);
      steps := steps + rest;
    }
  }

  /**
   * A closing shop pays for its rerolls, never below nothing, and then settles each of its transactions in turn; if the
   * rerolls' price fits 31 bits (their number is the game's own), no list of them and of transactions profits.
   */
  lemma SettledInOrder(setup: Setup, player: Player, rerolls: int, ts: seq<Transaction>) returns (steps: seq<Player>)
    requires Ready(setup) && Stocked(setup, player.inventory) && 0 <= player.coins
    ensures |steps| == |ts| + 1 && steps[0] == player.(coins := steps[0].coins)
    ensures forall k | 0 <= k < |ts| :: Traded(setup, steps[k], ts[k], steps[k + 1])
    ensures Settled(setup, player, rerolls, ts) == steps[|ts|].(shopDone := true)
    ensures var price := if rerolls <= 0 then 0 else rerolls * setup.rules.shopRerollCost;
      0 <= setup.rules.shopRerollCost && price < 0x8000_0000 && player.coins < 0x8000_0000 ==>
        && steps[0].coins == (if price <= player.coins then player.coins - price else 0)
        && Wealth(Settled(setup, player, rerolls, ts)) <= Wealth(player)
  {
    hide Ready, Stocked, Traded, TransactAll, Losses;
    var paid := player.(coins := AfterRerolls(player.coins, rerolls, setup.rules.shopRerollCost));
    if 0 <= setup.rules.shopRerollCost && player.coins < 0x8000_0000 {
      RerollsNeverPay(player.coins, rerolls, setup.rules.shopRerollCost);
    }
    steps := TransactInOrder(setup, paid, ts);
    NoListProfits(setup, paid, ts);
  }
}
