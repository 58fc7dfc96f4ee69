/**
 * The shop's transactions (ArenaRun.cs, lines 305-329 and 613-659), and what they keep: the inventory's closed form.
 */
module ArenaShop {
  import opened Options
  import opened ArenaRules
  import opened ArenaItems
  import opened ArenaTypes

  /** The first slot holding the slug ("": the first empty one), or the inventory's length. */
  function FindSlot(inventory: seq<OwnedItem>, slug: string): (i: nat)
    ensures i <= |inventory|
    ensures i < |inventory| ==> inventory[i].slug == slug
    ensures forall j | 0 <= j < i :: inventory[j].slug != slug
  {
    if inventory == [] || inventory[0].slug == slug then 0 else 1 + FindSlot(inventory[1..], slug)
  }

  /** The item on a place of a player's pages, if there is one and they can pay for it. */
  function Payable(setup: Setup, player: Player, page: int, index: int): Option<Item> {
    if page < 0 || page >= |player.shopPages| || index < 0 || index >= |player.shopPages[page]| then None
    else
      var item := Of(setup.items, player.shopPages[page][index]);
      if item.Some? && player.coins < item.value.cost then None else item
  }

  /** A copy of an item already owned: experience toward its next level. */
  function Copied(owned: OwnedItem, cost: int, table: seq<int>): OwnedItem
    requires 0 <= owned.level < |table|
  {
    var xp := owned.xp + 1;
    if xp >= table[owned.level]
    then OwnedItem(owned.slug, owned.level + 1, 0, owned.sellValue + cost / 2)
    else OwnedItem(owned.slug, owned.level, xp, owned.sellValue + cost / 2)
  }

  function Buy(setup: Setup, player: Player, page: int, index: int): Player
    requires Stocked(setup, player.inventory)
  {
    match Payable(setup, player, page, index)
    case None => player
    case Some(item) =>
      var inventory, table := player.inventory, setup.rules.itemXpPerLevel;
      var i := FindSlot(inventory, item.slug);
      if i < |inventory| then
        if inventory[i].level >= |table| then player
        else player.(coins := player.coins - item.cost,
          inventory := inventory[i := Copied(inventory[i], item.cost, table)])
      else
        var free := FindSlot(inventory, "");
        if free == |inventory| then player
        else player.(coins := player.coins - item.cost,
                     inventory := inventory[free := OwnedItem(item.slug, 1, 0, item.cost / 2)])
  }

  function Sell(player: Player, slot: int): Player {
    if slot < 0 || slot >= |player.inventory| || player.inventory[slot].IsEmpty() then player
    else player.(coins := player.coins + player.inventory[slot].sellValue,
      inventory := player.inventory[slot := EMPTY_SLOT])
  }

  function Transact(setup: Setup, player: Player, t: Transaction): Player
    requires Stocked(setup, player.inventory)
  {
    if t.purchase then Buy(setup, player, t.page, t.index) else Sell(player, t.index)
  }

  // ---- What an inventory is, whatever was bought and sold ----

  /** The experience the levels below a level took. */
  function XpBelow(table: seq<int>, level: int): int
    requires level <= 1 || level <= |table|
    decreases level
  {
    if level <= 1 then 0 else XpBelow(table, level - 1) + table[level - 1]
  }

  /** A slot in use: how many copies were bought says its level, its experience and what selling it pays. */
  ghost predicate Held(setup: Setup, owned: OwnedItem) {
    var table := setup.rules.itemXpPerLevel;
    var item := Of(setup.items, owned.slug);
    && item.Some?
    && 1 <= owned.level <= Max(1, |table|)
    && 0 <= owned.xp
    && (if owned.level < |table| then owned.xp < table[owned.level] else owned.xp == 0)
    && owned.sellValue == (1 + XpBelow(table, owned.level) + owned.xp) * (item.value.cost / 2)
  }

  ghost predicate Stocked(setup: Setup, inventory: seq<OwnedItem>) {
    && |inventory| == setup.rules.maxItemsInInventory
    && (forall i | 0 <= i < |inventory| :: inventory[i].IsEmpty() ==> inventory[i] == EMPTY_SLOT)
    && (forall i | 0 <= i < |inventory| :: !inventory[i].IsEmpty() ==> Held(setup, inventory[i]))
    && (forall i, j | 0 <= i < j < |inventory| :: inventory[i].slug == inventory[j].slug ==> inventory[i].IsEmpty())
  }

  function Resale(inventory: seq<OwnedItem>): int {
    if inventory == [] then 0 else inventory[0].sellValue + Resale(inventory[1..])
  }

  /** What a player has: their coins, and what selling everything would pay. */
  function Wealth(player: Player): int {
    player.coins + Resale(player.inventory)
  }

  lemma {:induction false} ResaleUpdate(inventory: seq<OwnedItem>, i: nat, owned: OwnedItem)
    requires i < |inventory|
    ensures Resale(inventory[i := owned]) == Resale(inventory) - inventory[i].sellValue + owned.sellValue
  {
    if i == 0 {
      assert inventory[i := owned][1..] == inventory[1..];
    } else {
      ResaleUpdate(inventory[1..], i - 1, owned);
      assert inventory[i := owned][1..] == inventory[1..][i - 1 := owned];
    }
  }

  /** A purchase happens exactly when the item can be paid, and levels a slot or fills an empty one. */
  ghost predicate Buys(setup: Setup, player: Player, page: int, index: int) {
    var item := Payable(setup, player, page, index);
    && item.Some?
    && if exists o :: o in player.inventory && o.slug == item.value.slug
       then forall o | o in player.inventory && o.slug == item.value.slug :: o.level < |setup.rules.itemXpPerLevel|
       else EMPTY_SLOT in player.inventory
  }

  lemma CopiedHeld(setup: Setup, owned: OwnedItem, item: Item)
    requires Ready(setup) && Held(setup, owned) && Of(setup.items, owned.slug) == Some(item)
    requires owned.level < |setup.rules.itemXpPerLevel|
    ensures Held(setup, Copied(owned, item.cost, setup.rules.itemXpPerLevel))
  {
    var copies := 1 + XpBelow(setup.rules.itemXpPerLevel, owned.level) + owned.xp;
    assert (copies + 1) * (item.cost / 2) == copies * (item.cost / 2) + item.cost / 2;
  }

  /** A purchase keeps the inventory's form, pays the cost, and loses exactly what a sale would not give back. */
  lemma BuyKeeps(setup: Setup, player: Player, page: int, index: int)
    requires Ready(setup) && Stocked(setup, player.inventory) && 0 <= player.coins
    ensures var after := Buy(setup, player, page, index);
      && Stocked(setup, after.inventory) && 0 <= after.coins
      && (if Buys(setup, player, page, index)
          then var cost := Payable(setup, player, page, index).value.cost;
            after.coins == player.coins - cost && Wealth(after) == Wealth(player) - (cost - cost / 2)
          else after == player)
  {
    var payable := Payable(setup, player, page, index);
    if payable.Some? {
      var item, inventory := payable.value, player.inventory;
      OfCatalog(setup.items, item);
      var i := FindSlot(inventory, item.slug);
      if i < |inventory| { CopyKeeps(setup, player, item, i); } else { FillKeeps(setup, player, item); }
    }
  }

  lemma CopyKeeps(setup: Setup, player: Player, item: Item, i: nat)
    requires Ready(setup) && Stocked(setup, player.inventory) && i < |player.inventory|
    requires Of(setup.items, item.slug) == Some(item) && item.slug != "" && player.inventory[i].slug == item.slug
    ensures forall o | o in player.inventory && o.slug == item.slug :: o == player.inventory[i]
    ensures player.inventory[i] in player.inventory
    ensures var inventory, table := player.inventory, setup.rules.itemXpPerLevel;
      0 <= inventory[i].level && (inventory[i].level < |table| ==>
        var after := inventory[i := Copied(inventory[i], item.cost, table)];
        Stocked(setup, after) && Resale(after) == Resale(inventory) + item.cost / 2)
  {
    var inventory, table := player.inventory, setup.rules.itemXpPerLevel;
    if inventory[i].level < |table| {
      CopiedHeld(setup, inventory[i], item);
      ResaleUpdate(inventory, i, Copied(inventory[i], item.cost, table));
    }
  }

  lemma FillKeeps(setup: Setup, player: Player, item: Item)
    requires Ready(setup) && Stocked(setup, player.inventory)
    requires Of(setup.items, item.slug) == Some(item) && item.slug != ""
    requires FindSlot(player.inventory, item.slug) == |player.inventory|
    ensures forall o | o in player.inventory :: o.slug != item.slug
    ensures var inventory, free := player.inventory, FindSlot(player.inventory, "");
      && (free < |inventory| <==> EMPTY_SLOT in inventory)
      && (free < |inventory| ==>
        var after := inventory[free := OwnedItem(item.slug, 1, 0, item.cost / 2)];
        Stocked(setup, after) && Resale(after) == Resale(inventory) + item.cost / 2)
  {
    var inventory, free := player.inventory, FindSlot(player.inventory, "");
    if free < |inventory| {
      assert inventory[free] == EMPTY_SLOT;
      assert Held(setup, OwnedItem(item.slug, 1, 0, item.cost / 2));
      ResaleUpdate(inventory, free, OwnedItem(item.slug, 1, 0, item.cost / 2));
    }
  }

  lemma {:induction false} OfCatalog(items: seq<Item>, item: Item)
    requires Catalog(items) && item in items
    ensures item.slug != "" && 0 <= item.cost && Of(items, item.slug) == Some(item)
  {
    var i :| 0 <= i < |items| && items[i] == item;
    OfFinds(items, i);
  }

  lemma HeldResale(setup: Setup, owned: OwnedItem)
    requires Ready(setup) && Held(setup, owned)
    ensures 0 <= owned.sellValue
  {
    var table := setup.rules.itemXpPerLevel;
    var item := Of(setup.items, owned.slug).value;
    OfCatalog(setup.items, item);
    XpBelowPositive(table, owned.level);
    var copies := 1 + XpBelow(table, owned.level) + owned.xp;
    Monotone(item.cost / 2, 0, copies);
  }

  lemma {:induction false} XpBelowPositive(table: seq<int>, level: int)
    requires level <= 1 || level <= |table|
    requires forall l | 1 <= l < |table| :: 0 < table[l]
    ensures 0 <= XpBelow(table, level)
    decreases level
  {
    if level > 1 { XpBelowPositive(table, level - 1); }
  }

  /** A sale empties its slot in place and turns its worth into coins: nothing is gained or lost. */
  lemma SellKeeps(setup: Setup, player: Player, slot: int)
    requires Ready(setup) && Stocked(setup, player.inventory) && 0 <= player.coins
    ensures var after := Sell(player, slot);
      Stocked(setup, after.inventory) && 0 <= player.coins <= after.coins && Wealth(after) == Wealth(player)
  {
    if 0 <= slot < |player.inventory| && !player.inventory[slot].IsEmpty() {
      HeldResale(setup, player.inventory[slot]);
      ResaleUpdate(player.inventory, slot, EMPTY_SLOT);
    }
  }

  function TransactAll(setup: Setup, player: Player, ts: seq<Transaction>): Player
    requires Ready(setup) && Stocked(setup, player.inventory) && 0 <= player.coins
    ensures var after := TransactAll(setup, player, ts); Stocked(setup, after.inventory) && 0 <= after.coins
    decreases |ts|
  {
    if ts == [] then player
    else
      TransactKeeps(setup, player, ts[0]);
      TransactAll(setup, Transact(setup, player, ts[0]), ts[1..])
  }

  lemma TransactKeeps(setup: Setup, player: Player, t: Transaction)
    requires Ready(setup) && Stocked(setup, player.inventory) && 0 <= player.coins
    ensures var after := Transact(setup, player, t);
      && Stocked(setup, after.inventory) && 0 <= after.coins
      && Wealth(after) == Wealth(player) - Loss(setup, player, t)
      && after == player.(coins := after.coins, inventory := after.inventory)
  {
    if t.purchase { BuyKeeps(setup, player, t.page, t.index); } else { SellKeeps(setup, player, t.index); }
  }

  /** What a transaction costs for good: a purchase's cost less half of it; a sale, or a purchase refused, nothing. */
  ghost function Loss(setup: Setup, player: Player, t: Transaction): (loss: int)
  {
    if t.purchase && Buys(setup, player, t.page, t.index)
    then var cost := Payable(setup, player, t.page, t.index).value.cost; cost - cost / 2
    else 0
  }

  ghost function Losses(setup: Setup, player: Player, ts: seq<Transaction>): int
    requires Ready(setup) && Stocked(setup, player.inventory) && 0 <= player.coins
    decreases |ts|
  {
    if ts == [] then 0
    else
      TransactKeeps(setup, player, ts[0]);
      Loss(setup, player, ts[0]) + Losses(setup, Transact(setup, player, ts[0]), ts[1..])
  }

  /**
   * No list of transactions profits: wealth falls by exactly what its purchases lose, and only coins and items change.
   */
  lemma {:induction false} NoListProfits(setup: Setup, player: Player, ts: seq<Transaction>)
    requires Ready(setup) && Stocked(setup, player.inventory) && 0 <= player.coins
    ensures var after := TransactAll(setup, player, ts);
      && Wealth(after) == Wealth(player) - Losses(setup, player, ts) <= Wealth(player)
      && after == player.(coins := after.coins, inventory := after.inventory)
    decreases |ts|
  {
    if ts != [] {
      TransactKeeps(setup, player, ts[0]);
      NoListProfits(setup, Transact(setup, player, ts[0]), ts[1..]);
      var payable := Payable(setup, player, ts[0].page, ts[0].index);
      if payable.Some? { OfCatalog(setup.items, payable.value); }
    }
  }

  // ---- The rerolls' charge ----

  /** A 32-bit sum or product, wrapped as the program's integers are. */
  function Wrap32(x: int): int {
    (x + 0x8000_0000) % 0x1_0000_0000 - 0x8000_0000
  }

  /** The coins left once the shop's rerolls are paid for; how many there were is the game's own number. */
  function AfterRerolls(coins: int, rerolls: int, cost: int): int {
    Max(0, Wrap32(coins - Wrap32(Max(0, rerolls) * cost)))
  }

  /**
   * Paying for rerolls never adds coins, unless their price is over 31 bits and wraps to a credit that still fits.
   * At the game's own numbers (a few rerolls) it is the plain subtraction.
   */
  lemma RerollsNeverPay(coins: int, rerolls: int, cost: int)
    requires 0 <= coins < 0x8000_0000 && 0 <= cost
    ensures var price := Max(0, rerolls) * cost;
      && (AfterRerolls(coins, rerolls, cost) <= coins
          <==> Wrap32(price) >= 0 || coins - Wrap32(price) >= 0x8000_0000)
      && (price < 0x8000_0000 ==> AfterRerolls(coins, rerolls, cost) == Max(0, coins - price))
  {
    var price := Max(0, rerolls) * cost;
    assert 0 <= price by { Monotone(cost, 0, Max(0, rerolls)); }
    var w := Wrap32(price);
    assert -0x8000_0000 <= w < 0x8000_0000;
    if price < 0x8000_0000 { assert w == price; }
    if w >= 0 { assert Wrap32(coins - w) == coins - w; }
    else if coins - w < 0x8000_0000 { assert Wrap32(coins - w) == coins - w; }
    else { assert Wrap32(coins - w) == coins - w - 0x1_0000_0000; }
  }

  /** A price the game never asks for that does add coins: 3 * 2^29 rerolls at 2 coins. */
  lemma RerollsCanPay()
    ensures AfterRerolls(10, 0x6000_0000, 2) > 10
  {
    assert Wrap32(0x6000_0000 * 2) == -0x4000_0000;
  }
}
