/**
  What the battle-pass grant promises, stated over the functions of GrantSpec:
  the defaults, the effect of each kind of reward line, the tier order and the
  lootList, the gift box and the revision counters, and the figures of the
  success response.
 */
module GrantProperties {
  import opened Text
  import opened Inventory
  import opened GrantSpec

  // ---------------------------------------------------------------------------
  // Defaults

  /** An attribute of the right type is kept; any other value gets its default (lines 98-109). */
  lemma NormalizeStatsDefaults(st: Stats)
    ensures var r := NormalizeStats(st);
      && (st.seasonMatchBoost.JsNumber? ==> r.seasonMatchBoost == st.seasonMatchBoost)
      && (!st.seasonMatchBoost.JsNumber? ==> r.seasonMatchBoost == JsNumber(0))
      && (st.seasonFriendMatchBoost.JsNumber? ==> r.seasonFriendMatchBoost == st.seasonFriendMatchBoost)
      && (!st.seasonFriendMatchBoost.JsNumber? ==> r.seasonFriendMatchBoost == JsNumber(0))
      && (st.bookLevel.JsNumber? ==> r.bookLevel == st.bookLevel)
      && (!st.bookLevel.JsNumber? ==> r.bookLevel == JsNumber(1))
      && (st.bookPurchased.JsBool? ==> r.bookPurchased == st.bookPurchased)
      && (!st.bookPurchased.JsBool? ==> r.bookPurchased == JsBool(false))
  {
  }

  /** Stats that already have the expected types are left alone, so the defaults are idempotent. */
  lemma NormalizeStatsIdempotent(st: Stats)
    ensures Normalized(st) <==> NormalizeStats(st) == st
    ensures NormalizeStats(NormalizeStats(st)) == NormalizeStats(st)
  {
  }

  // ---------------------------------------------------------------------------
  // Classification

  /** A string that starts with a non-empty prefix starts with its first character. */
  lemma PrefixHead(s: string, p: string)
    requires StartsWith(s, p) && |p| > 0
    ensures |s| > 0 && s[0] == p[0]
  {
    assert s[..|p|][0] == s[0];
  }

  /**
    The five tests a reward line goes through one after the other (lines
    149-196) never pass together: whichever passes is the one Classify names.
   */
  lemma ClassifyExact(id: string)
    ensures var l := Lower(id);
      && (l == XpBoostToken <==> Classify(id) == SeasonXpBoost)
      && (l == FriendXpBoostToken <==> Classify(id) == SeasonFriendXpBoost)
      && (StartsWith(l, CurrencyPrefix) <==> Classify(id) == Currency)
      && (StartsWith(l, BannerPrefix) <==> Classify(id) == Banner)
      && (StartsWith(l, CosmeticPrefix) <==> Classify(id) == Cosmetic)
  {
    var l := Lower(id);
    if StartsWith(l, CurrencyPrefix) { PrefixHead(l, CurrencyPrefix); }
    if StartsWith(l, BannerPrefix) { PrefixHead(l, BannerPrefix); }
    if StartsWith(l, CosmeticPrefix) { PrefixHead(l, CosmeticPrefix); }
  }

  // ---------------------------------------------------------------------------
  // Reward lines other than currency

  /** Neither XP-boost token starts with one of the three prefixes. */
  lemma TokensAreNotPrefixed(l: string)
    requires l == XpBoostToken || l == FriendXpBoostToken
    ensures !StartsWith(l, CurrencyPrefix) && !StartsWith(l, BannerPrefix) && !StartsWith(l, CosmeticPrefix)
  {
    if StartsWith(l, CurrencyPrefix) { PrefixHead(l, CurrencyPrefix); }
    if StartsWith(l, BannerPrefix) { PrefixHead(l, BannerPrefix); }
    if StartsWith(l, CosmeticPrefix) { PrefixHead(l, CosmeticPrefix); }
  }

  /** A season XP-boost line adds its quantity to season_match_boost and changes nothing else. */
  lemma XpBoostLine(s: Snapshot, aliased: bool, line: Line)
    requires Ready(s, aliased) && Lower(line.id) == XpBoostToken
    ensures ApplyLine(s, aliased, line) ==
      Ok(s.(athena := s.athena.(stats := s.athena.stats.(
        seasonMatchBoost := JsNumber(s.athena.stats.seasonMatchBoost.num + line.quantity)))))
  {
    TokensAreNotPrefixed(Lower(line.id));
  }

  /** A friend XP-boost line adds its quantity to season_friend_match_boost and changes nothing else. */
  lemma FriendXpBoostLine(s: Snapshot, aliased: bool, line: Line)
    requires Ready(s, aliased) && Lower(line.id) == FriendXpBoostToken
    ensures ApplyLine(s, aliased, line) ==
      Ok(s.(athena := s.athena.(stats := s.athena.stats.(
        seasonFriendMatchBoost := JsNumber(s.athena.stats.seasonFriendMatchBoost.num + line.quantity)))))
  {
    TokensAreNotPrefixed(Lower(line.id));
  }

  /** A line of no known kind changes no document; it only gets its loot entry. */
  lemma GenericLine(s: Snapshot, aliased: bool, line: Line)
    requires Ready(s, aliased) && Classify(line.id) == Generic
    ensures ApplyLine(s, aliased, line) == Ok(s)
  {
    ClassifyExact(line.id);
  }

  /** A banner line works on `profile` (and so on `profile0` when they are one object) only. */
  lemma BannerLine(s: Snapshot, aliased: bool, line: Line)
    requires Ready(s, aliased) && Classify(line.id) == Banner
    ensures ApplyLine(s, aliased, line) ==
      Ok(WritePrimary(s, aliased, s.primary.(items := GrantUnique(s.primary.items, line.id, NewBanner(line.id)))))
  {
    ClassifyExact(line.id);
  }

  /** A cosmetic line works on the athena items only. */
  lemma CosmeticLine(s: Snapshot, aliased: bool, line: Line)
    requires Ready(s, aliased) && Classify(line.id) == Cosmetic
    ensures ApplyLine(s, aliased, line) ==
      Ok(s.(athena := s.athena.(items := GrantUnique(s.athena.items, line.id, NewCosmetic(line.id, line.quantity)))))
  {
    ClassifyExact(line.id);
  }

  /** A currency line changes nothing but the wallets: the whole effect is GrantCurrency's. */
  lemma CurrencyLine(s: Snapshot, aliased: bool, line: Line)
    requires Ready(s, aliased) && Classify(line.id) == Currency
    ensures ApplyLine(s, aliased, line) == GrantCurrency(s, aliased, line.quantity)
  {
    ClassifyExact(line.id);
  }

  // ---------------------------------------------------------------------------
  // Currency

  /** The position of the first wallet, in iteration order, is what FirstWallet finds. */
  lemma {:induction false} FirstWalletIs(keys: seq<string>, items: map<string, Item>, from: nat, i: nat)
    requires from <= i < |keys| && WalletAt(keys, items, i)
    requires forall j :: from <= j < i ==> !WalletAt(keys, items, j)
    ensures FirstWallet(keys, items, from) == Some(i)
    decreases i - from
  {
    if from < i {
      FirstWalletIs(keys, items, from + 1, i);
    }
  }

  /** Without a wallet in `profile` the currency line is dropped. */
  lemma CurrencyWithoutWallet(s: Snapshot, aliased: bool, q: int)
    requires Ready(s, aliased)
    requires forall k :: k in s.primary.items.items ==> !IsWallet(s.primary.items.items[k])
    ensures GrantCurrency(s, aliased, q) == Ok(s)
  {
  }

  /**
    Two separate documents: the first wallet of `profile`, at position i, gains q,
    and so does the item under the same key of `profile0`; nothing else changes.
   */
  lemma CurrencyMirrored(s: Snapshot, q: int, i: nat)
    requires Ready(s, false)
    requires i < |s.primary.items.order| && WalletAt(s.primary.items.order, s.primary.items.items, i)
    requires forall j :: 0 <= j < i ==> !WalletAt(s.primary.items.order, s.primary.items.items, j)
    requires s.primary.items.order[i] in s.secondary.items.items
    ensures var k := s.primary.items.order[i];
      GrantCurrency(s, false, q) == Ok(s.(
        primary := s.primary.(items := AddQuantity(s.primary.items, k, q)),
        secondary := s.secondary.(items := AddQuantity(s.secondary.items, k, q))))
  {
    FirstWalletIs(s.primary.items.order, s.primary.items.items, 0, i);
  }

  /** Two separate documents and no item under the wallet's key in `profile0`: the handler throws. */
  lemma CurrencyMissingMirror(s: Snapshot, q: int, i: nat)
    requires Ready(s, false)
    requires i < |s.primary.items.order| && WalletAt(s.primary.items.order, s.primary.items.items, i)
    requires forall j :: 0 <= j < i ==> !WalletAt(s.primary.items.order, s.primary.items.items, j)
    requires s.primary.items.order[i] !in s.secondary.items.items
    ensures GrantCurrency(s, false, q) == Err(MissingMirrorItem)
  {
    FirstWalletIs(s.primary.items.order, s.primary.items.items, 0, i);
  }

  /** `profile` and `profile0` one object: the first wallet gains the quantity twice. */
  lemma CurrencyAliased(s: Snapshot, q: int, i: nat)
    requires Ready(s, true)
    requires i < |s.primary.items.order| && WalletAt(s.primary.items.order, s.primary.items.items, i)
    requires forall j :: 0 <= j < i ==> !WalletAt(s.primary.items.order, s.primary.items.items, j)
    ensures var k := s.primary.items.order[i];
      var d := s.primary.(items := AddQuantity(s.primary.items, k, 2 * q));
      GrantCurrency(s, true, q) == Ok(s.(primary := d, secondary := d))
  {
    var c := s.primary.items;
    var k := c.order[i];
    FirstWalletIs(c.order, c.items, 0, i);
    var c1 := AddQuantity(c, k, q);
    var c2 := AddQuantity(c1, k, q);
    assert c2 == AddQuantity(c, k, 2 * q);
  }

  // ---------------------------------------------------------------------------
  // Banners and cosmetics

  /** Marking an item unseen keeps its templateId and quantity, and marking it again changes nothing. */
  lemma MarkUnseenKeeps(item: Item)
    ensures MarkUnseen(item).templateId == item.templateId
    ensures MarkUnseen(item).quantity == item.quantity
    ensures MarkUnseen(item).attributes.details == item.attributes.details
    ensures MarkUnseen(item).attributes.itemSeen == Some(false)
    ensures MarkUnseen(MarkUnseen(item)) == MarkUnseen(item)
  {
  }

  /** The grant of a banner or cosmetic keeps the number of items, or adds exactly one. */
  lemma GrantUniqueCount(c: Container, id: string, created: Item)
    requires WellFormed(c)
    ensures var r := GrantUnique(c, id, created);
      |r.items| == if HasTemplate(c, id) then |c.items| else |c.items| + 1
  {
    var r := GrantUnique(c, id, created);
    if HasTemplate(c, id) {
      assert r.items.Keys == c.items.Keys;
    } else {
      assert r.items.Keys == c.items.Keys + {FreshKey(c)};
    }
  }

  /**
    Granting a banner or cosmetic that is already owned changes nothing more:
    the second grant finds the item the first one marked or added.
   */
  lemma GrantUniqueAgain(c: Container, id: string, created: Item)
    requires WellFormed(c) && id != ""
    requires created.templateId == id && created.attributes.itemSeen == Some(false)
    ensures GrantUnique(GrantUnique(c, id, created), id, created) == GrantUnique(c, id, created)
  {
    var c1 := GrantUnique(c, id, created);
    if HasTemplate(c, id) {
      forall k | k in c1.items
        ensures SameTemplate(c1.items[k], id) <==> SameTemplate(c.items[k], id)
      {
      }
      var k :| k in c.items && SameTemplate(c.items[k], id);
      assert SameTemplate(c1.items[k], id);
    } else {
      var k := FreshKey(c);
      assert c1.items[k] == created;
      assert SameTemplate(created, id);
    }
    var c2 := GrantUnique(c1, id, created);
    assert c2.items == c1.items;
  }

  // ---------------------------------------------------------------------------
  // Tiers and the lootList

  /** The lootList of a track has one entry per line, in the order of the lines. */
  lemma {:induction false} EntriesAt(lines: Track, j: nat)
    requires j < |lines|
    ensures Entries(lines)[j] == LootEntry(lines[j].id, lines[j].id, lines[j].quantity)
    decreases |lines|
  {
    if j < |lines| - 1 {
      EntriesAt(lines[..|lines| - 1], j);
    }
  }

  /** Within a tier the free entries come first; the paid ones follow iff the pass is purchased. */
  lemma TierLootOrder(catalog: Catalog, purchased: bool, i: int)
    ensures var free := Entries(TierAt(catalog.freeRewards, i));
      var loot := TierLoot(catalog, purchased, i);
      && |free| <= |loot| && loot[..|free|] == free
      && loot[|free|..] == if purchased then Entries(TierAt(catalog.paidRewards, i)) else []
  {
  }

  /** A tier the season file does not list, or lists as `{}`, changes nothing and yields no loot. */
  lemma EmptyTier(s: Snapshot, aliased: bool, catalog: Catalog, purchased: bool, i: int)
    requires Ready(s, aliased)
    requires 0 <= i < |catalog.freeRewards| ==> catalog.freeRewards[i] == []
    requires 0 <= i < |catalog.paidRewards| ==> catalog.paidRewards[i] == []
    ensures ApplyTier(s, aliased, catalog, i) == Ok(s)
    ensures TierLoot(catalog, purchased, i) == []
  {
  }

  /** The lootList of tiers lo, ..., hi - 1 is that of lo, ..., mid - 1 followed by that of mid, ..., hi - 1. */
  lemma {:induction false} LootSplit(catalog: Catalog, purchased: bool, lo: int, mid: int, hi: int)
    requires lo <= mid <= hi
    ensures Loot(catalog, purchased, lo, hi) == Loot(catalog, purchased, lo, mid) + Loot(catalog, purchased, mid, hi)
    decreases hi - mid
  {
    if mid < hi {
      LootSplit(catalog, purchased, lo, mid, hi - 1);
    }
  }

  /** The tiers are granted in ascending order: lo, ..., mid - 1 first, then mid, ..., hi - 1. */
  lemma {:induction false} ApplyTiersSplit(s: Snapshot, aliased: bool, catalog: Catalog, lo: int, mid: int, hi: int)
    requires Ready(s, aliased) && lo <= mid <= hi
    ensures ApplyTiers(s, aliased, catalog, lo, hi) ==
      match ApplyTiers(s, aliased, catalog, lo, mid)
      case Err(e) => Err(e)
      case Ok(s1) => ApplyTiers(s1, aliased, catalog, mid, hi)
    decreases hi - mid
  {
    if mid < hi {
      ApplyTiersSplit(s, aliased, catalog, lo, mid, hi - 1);
    }
  }

  // ---------------------------------------------------------------------------
  // With `profile` and `profile0` one object the grant cannot throw

  lemma ApplyLineAliasedOk(s: Snapshot, line: Line)
    requires Ready(s, true)
    ensures ApplyLine(s, true, line).Ok?
  {
  }

  lemma {:induction false} ApplyLinesAliasedOk(s: Snapshot, lines: Track)
    requires Ready(s, true)
    ensures ApplyLines(s, true, lines).Ok?
    decreases |lines|
  {
    if lines != [] {
      ApplyLinesAliasedOk(s, lines[..|lines| - 1]);
      ApplyLineAliasedOk(ApplyLines(s, true, lines[..|lines| - 1]).value, lines[|lines| - 1]);
    }
  }

  lemma {:induction false} ApplyTiersAliasedOk(s: Snapshot, catalog: Catalog, lo: int, hi: int)
    requires Ready(s, true)
    ensures ApplyTiers(s, true, catalog, lo, hi).Ok?
    decreases hi - lo
  {
    if lo < hi {
      ApplyTiersAliasedOk(s, catalog, lo, hi - 1);
      var s1 := ApplyTiers(s, true, catalog, lo, hi - 1).value;
      ApplyLinesAliasedOk(s1, TierAt(catalog.freeRewards, hi - 1));
      var s2 := ApplyLines(s1, true, TierAt(catalog.freeRewards, hi - 1)).value;
      ApplyLinesAliasedOk(s2, TierAt(catalog.paidRewards, hi - 1));
    }
  }

  /** The mirror item of line 165 always exists when `profile0` is `profile`: such a grant never throws. */
  lemma GrantAliasedOk(s: Snapshot, catalog: Catalog, tiersToAdd: int, now: string)
    requires Consistent(s, true) && tiersToAdd > 0
    ensures Grant(s, true, catalog, tiersToAdd, now).Ok?
  {
    var start := NormalizeStats(s.athena.stats).bookLevel.num;
    ApplyTiersAliasedOk(Advanced(s, tiersToAdd), catalog, start, start + tiersToAdd);
  }

  // ---------------------------------------------------------------------------
  // Gift box and revisions

  /**
    Lines 329-354: the gift box carrying the whole lootList is added to
    `profile` under a new key iff the lootList is non-empty; every document's
    rvn and commandRevision rise by one per bump it receives, which makes two
    for `profile` when it is also `profile0`; athena's items and stats stay.
   */
  lemma FinalizeEffect(s: Snapshot, aliased: bool, loot: seq<LootEntry>, now: string)
    requires Consistent(s, aliased)
    ensures var r := Finalize(s, aliased, loot, now);
      var c := s.primary.items;
      var bumps := if aliased then 2 else 1;
      && r.athena == s.athena.(rvn := s.athena.rvn + 1, commandRevision := s.athena.commandRevision + 1, updated := now)
      && (|loot| == 0 ==> r.primary.items == c)
      && (|loot| > 0 ==>
            && FreshKey(c) !in c.items
            && r.primary.items == Container(c.order + [FreshKey(c)], c.items[FreshKey(c) := GiftBox(loot)]))
      && r.primary.stats == s.primary.stats
      && r.primary.rvn == s.primary.rvn + bumps
      && r.primary.commandRevision == s.primary.commandRevision + bumps
      && r.primary.updated == now
      && (aliased ==> r.secondary == r.primary)
      && (!aliased ==> r.secondary == s.secondary.(rvn := s.secondary.rvn + 1, commandRevision := s.secondary.commandRevision + 1, updated := now))
  {
  }

  /** The gift box: GiftBox:gb_battlepass, quantity 1, from no account, holding the lootList. */
  lemma GiftBoxContents(loot: seq<LootEntry>)
    ensures GiftBox(loot).templateId == "GiftBox:gb_battlepass" && GiftBox(loot).quantity == 1
    ensures GiftBox(loot).attributes.details == GiftBoxDetails(0, "", loot)
  {
  }

  // ---------------------------------------------------------------------------
  // The whole grant

  /**
    Lines 133-137 and 366-374: book_level rises by exactly tiersToAdd,
    book_purchased stays as the defaults left it, and the response reports the
    levels before and after and the length of the lootList of the tiers in between.
   */
  lemma GrantReceipt(s: Snapshot, aliased: bool, catalog: Catalog, tiersToAdd: int, now: string)
    requires Consistent(s, aliased)
    requires Grant(s, aliased, catalog, tiersToAdd, now).Ok?
    ensures var st := NormalizeStats(s.athena.stats);
      var t := Grant(s, aliased, catalog, tiersToAdd, now).value.0;
      var rc := Grant(s, aliased, catalog, tiersToAdd, now).value.1;
      && rc.tiersAdded == tiersToAdd
      && rc.bookLevelBefore == st.bookLevel.num
      && rc.bookLevelAfter == rc.bookLevelBefore + tiersToAdd
      && t.athena.stats.bookLevel == JsNumber(rc.bookLevelAfter)
      && t.athena.stats.bookPurchased == st.bookPurchased
      && rc.lootListCount == |Loot(catalog, st.bookPurchased.flag, rc.bookLevelBefore, rc.bookLevelAfter)|
  {
    var st := NormalizeStats(s.athena.stats);
    var start := st.bookLevel.num;
    var s1 := Advanced(s, tiersToAdd);
    var s2 := ApplyTiers(s1, aliased, catalog, start, start + tiersToAdd).value;
    assert SameProgress(s1, s2);
    GrantStages(s, aliased, catalog, tiersToAdd, now, s2);
    FinalizeEffect(s2, aliased, Loot(catalog, st.bookPurchased.flag, start, start + tiersToAdd), now);
  }
}
