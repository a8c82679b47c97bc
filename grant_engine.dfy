/**
  The grant as the handler runs it: in place, on the three profile objects.
  `profile` and `profile0` may be one object; `athena` is always another.
  Every method is proved to leave the documents in the state the functions of
  GrantSpec compute, with `profile == profile0` as the aliasing flag.
 */
module GrantEngine {
  import opened Text
  import opened Inventory
  import opened GrantSpec

  /** The values of the three documents. */
  function View(athena: Profile, profile: Profile, profile0: Profile): Snapshot
    reads athena, profile, profile0
  {
    Snapshot(athena.Value(), profile.Value(), profile0.Value())
  }

  /** What the handler answers: the success figures, or the error. */
  datatype Outcome = Granted(receipt: Receipt) | Refused(error: GrantError)

  /** Lines 98-109: give the four stats attributes their defaults. */
  method NormalizeDefaults(athena: Profile)
    modifies athena
    ensures athena.Value() == old(athena.Value()).(stats := NormalizeStats(old(athena.stats)))
  {
    if !athena.stats.seasonMatchBoost.JsNumber? {
      athena.stats := athena.stats.(seasonMatchBoost := JsNumber(0));
    }
    if !athena.stats.seasonFriendMatchBoost.JsNumber? {
      athena.stats := athena.stats.(seasonFriendMatchBoost := JsNumber(0));
    }
    if !athena.stats.bookLevel.JsNumber? {
      athena.stats := athena.stats.(bookLevel := JsNumber(1));
    }
    if !athena.stats.bookPurchased.JsBool? {
      athena.stats := athena.stats.(bookPurchased := JsBool(false));
    }
  }

  /**
    Lines 157-168: add q to the first wallet of `profile` and to the item under
    the same key of `profile0`; false when that item does not exist (the
    handler's TypeError).
   */
  method GrantCurrencyLine(athena: Profile, profile: Profile, profile0: Profile, q: int) returns (ok: bool)
    requires athena != profile && athena != profile0
    requires Ready(View(athena, profile, profile0), profile == profile0)
    modifies profile, profile0
    ensures var r := GrantCurrency(old(View(athena, profile, profile0)), profile == profile0, q);
      ok == r.Ok? && (ok ==> View(athena, profile, profile0) == r.value)
  {
    var keys := profile.items.order;
    var i := 0;
    while i < |keys|
      invariant 0 <= i <= |keys|
      invariant View(athena, profile, profile0) == old(View(athena, profile, profile0))
      invariant forall j :: 0 <= j < i ==> !WalletAt(keys, profile.items.items, j)
    {
      var key := keys[i];
      KeyAt(profile.items, i);
      var item := profile.items.items[key];
      if item.templateId != "" && StartsWith(Lower(item.templateId), CurrencyPrefix) {
        assert WalletAt(keys, profile.items.items, i);
        ghost var first := FirstWallet(keys, profile.items.items, 0);
        assert first.Some? && first.value == i;
        profile.items := AddQuantity(profile.items, key, q);
        if key !in profile0.items.items {
          return false;
        }
        profile0.items := AddQuantity(profile0.items, key, q);
        return true;
      }
      i := i + 1;
    }
    return true;
  }

  /**
    The scans of lines 173-179 (banners) and 198-204 (cosmetics): mark every
    item with the templateId as unseen; the answer says whether one was found.
   */
  method MarkScan(p: Profile, id: string) returns (itemExists: bool)
    requires p.Valid()
    modifies p
    ensures p.Value() == old(p.Value()).(items := MarkTemplate(old(p.items), id))
    ensures itemExists == HasTemplate(old(p.items), id)
  {
    ghost var c0 := p.items;
    var keys := p.items.order;
    itemExists := false;
    var i := 0;
    while i < |keys|
      invariant 0 <= i <= |keys|
      invariant p.items == c0.(items := MarkFirst(c0, id, i))
      invariant itemExists == FoundFirst(c0, id, i)
      invariant p.Value() == old(p.Value()).(items := p.items)
    {
      var key := keys[i];
      MarkFirstAt(c0, id, i, i);
      var item := p.items.items[key];
      if SameTemplate(item, id) {
        p.items := p.items.(items := p.items.items[key := MarkUnseen(item)]);
        itemExists := true;
      }
      i := i + 1;
    }
    MarkFirstComplete(c0, id);
  }

  /**
    Lines 171-193 (banners, on `profile`) and 196-225 (cosmetics, on `athena`):
    mark every item with the templateId as unseen, and store `created` under a
    fresh key when none was found.
   */
  method GrantUniqueLine(p: Profile, id: string, created: Item)
    requires p.Valid()
    modifies p
    ensures p.Value() == old(p.Value()).(items := GrantUnique(old(p.items), id, created))
  {
    var itemExists := MarkScan(p, id);
    if !itemExists {
      var itemId := FreshKey(p.items);
      p.items := Put(p.items, itemId, created);
    }
  }

  /** Lines 149-154: the two XP-boost counters; `id` is the lower-cased identifier. */
  method GrantBoostLine(athena: Profile, id: string, q: int)
    requires Normalized(athena.stats)
    modifies athena
    ensures athena.Value() == old(athena.Value()).(stats := BoostStats(old(athena.stats), id, q))
  {
    if id == XpBoostToken {
      athena.stats := athena.stats.(seasonMatchBoost := JsNumber(athena.stats.seasonMatchBoost.num + q));
    }
    if id == FriendXpBoostToken {
      athena.stats := athena.stats.(seasonFriendMatchBoost := JsNumber(athena.stats.seasonFriendMatchBoost.num + q));
    }
  }

  /** Lines 171-226: the banner scan on `profile`, then the cosmetic scan on `athena`. */
  method GrantUniquesTo(athena: Profile, profile: Profile, profile0: Profile, line: Line)
    requires athena != profile && athena != profile0
    requires Consistent(View(athena, profile, profile0), profile == profile0)
    modifies athena, profile, profile0
    ensures View(athena, profile, profile0) == GrantUniques(old(View(athena, profile, profile0)), profile == profile0, line)
  {
    ghost var s3 := View(athena, profile, profile0);
    ghost var aliased := profile == profile0;
    var id := Lower(line.id);
    if StartsWith(id, BannerPrefix) {
      GrantUniqueLine(profile, line.id, NewBanner(line.id));
    }
    ghost var s4 := View(athena, profile, profile0);
    assert s4 == if StartsWith(id, BannerPrefix)
      then WritePrimary(s3, aliased, s3.primary.(items := GrantUnique(s3.primary.items, line.id, NewBanner(line.id))))
      else s3;
    if StartsWith(id, CosmeticPrefix) {
      GrantUniqueLine(athena, line.id, NewCosmetic(line.id, line.quantity));
    }
  }

  /** The body of the per-line loop, less the loot entry; false when it throws. */
  method ApplyLineTo(athena: Profile, profile: Profile, profile0: Profile, line: Line) returns (ok: bool)
    requires athena != profile && athena != profile0
    requires Ready(View(athena, profile, profile0), profile == profile0)
    modifies athena, profile, profile0
    ensures var r := ApplyLine(old(View(athena, profile, profile0)), profile == profile0, line);
      ok == r.Ok? && (ok ==> View(athena, profile, profile0) == r.value)
  {
    ghost var s0 := View(athena, profile, profile0);
    var id := Lower(line.id);
    GrantBoostLine(athena, id, line.quantity);
    assert View(athena, profile, profile0) == GrantBoosts(s0, id, line.quantity);
    if StartsWith(id, CurrencyPrefix) {
      ok := GrantCurrencyLine(athena, profile, profile0, line.quantity);
      if !ok {
        return;
      }
    }
    GrantUniquesTo(athena, profile, profile0, line);
    ok := true;
  }

  /**
    The loop over one track of a tier (lines 145-233 or 237-324): each line,
    then its loot entry appended to `loot`.
   */
  method ApplyTrack(athena: Profile, profile: Profile, profile0: Profile, lines: Track, loot: seq<LootEntry>)
    returns (ok: bool, lootList: seq<LootEntry>)
    requires athena != profile && athena != profile0
    requires Ready(View(athena, profile, profile0), profile == profile0)
    modifies athena, profile, profile0
    ensures var r := ApplyLines(old(View(athena, profile, profile0)), profile == profile0, lines);
      ok == r.Ok? && (ok ==> View(athena, profile, profile0) == r.value && lootList == loot + Entries(lines))
  {
    ghost var s0 := View(athena, profile, profile0);
    ghost var aliased := profile == profile0;
    lootList := loot;
    var j := 0;
    while j < |lines|
      invariant 0 <= j <= |lines|
      invariant ApplyLines(s0, aliased, lines[..j]) == Ok(View(athena, profile, profile0))
      invariant lootList == loot + Entries(lines[..j])
    {
      ghost var before := View(athena, profile, profile0);
      ApplyLinesStep(s0, aliased, lines, j);
      ok := ApplyLineTo(athena, profile, profile0, lines[j]);
      if !ok {
        ApplyLinesErrPersists(s0, aliased, lines, j + 1);
        return;
      }
      lootList := lootList + [Entry(lines[j])];
      j := j + 1;
    }
    assert lines[..j] == lines;
    ok := true;
  }

  /** One pass of the tier loop (lines 141-325): the free track, then the paid track if purchased. */
  method GrantTier(athena: Profile, profile: Profile, profile0: Profile, catalog: Catalog, i: int, loot: seq<LootEntry>)
    returns (ok: bool, lootList: seq<LootEntry>)
    requires athena != profile && athena != profile0
    requires Ready(View(athena, profile, profile0), profile == profile0)
    modifies athena, profile, profile0
    ensures var r := ApplyTier(old(View(athena, profile, profile0)), profile == profile0, catalog, i);
      && ok == r.Ok?
      && (ok ==> View(athena, profile, profile0) == r.value &&
                 lootList == loot + TierLoot(catalog, old(athena.stats.bookPurchased.flag), i))
  {
    ghost var purchased := athena.stats.bookPurchased.flag;
    var freeTier := TierAt(catalog.freeRewards, i);
    var paidTier := TierAt(catalog.paidRewards, i);
    ok, lootList := ApplyTrack(athena, profile, profile0, freeTier, loot);
    if !ok {
      return;
    }
    assert athena.stats.bookPurchased.flag == purchased;
    ghost var freeLoot := lootList;
    assert freeLoot == loot + Entries(freeTier);
    if athena.stats.bookPurchased.flag {
      ok, lootList := ApplyTrack(athena, profile, profile0, paidTier, lootList);
      if ok {
        assert lootList == freeLoot + Entries(paidTier);
        AppendAssoc(loot, Entries(freeTier), Entries(paidTier));
      }
    }
  }

  lemma AppendAssoc(a: seq<LootEntry>, b: seq<LootEntry>, c: seq<LootEntry>)
    ensures a + b + c == a + (b + c)
  {
  }

  /** Tier i after the tiers lo, ..., i - 1: the state and lootList advance by one tier. */
  method GrantNextTier(athena: Profile, profile: Profile, profile0: Profile, catalog: Catalog,
                       ghost s0: Snapshot, lo: int, i: int, loot: seq<LootEntry>)
    returns (ok: bool, lootList: seq<LootEntry>)
    requires athena != profile && athena != profile0
    requires Ready(s0, profile == profile0) && lo <= i
    requires ApplyTiers(s0, profile == profile0, catalog, lo, i) == Ok(View(athena, profile, profile0))
    requires loot == Loot(catalog, s0.athena.stats.bookPurchased.flag, lo, i)
    modifies athena, profile, profile0
    ensures var r := ApplyTiers(s0, profile == profile0, catalog, lo, i + 1);
      && ok == r.Ok?
      && (ok ==> View(athena, profile, profile0) == r.value &&
                 lootList == Loot(catalog, s0.athena.stats.bookPurchased.flag, lo, i + 1))
  {
    TiersStep(s0, profile == profile0, catalog, s0.athena.stats.bookPurchased.flag, lo, i, View(athena, profile, profile0));
    ok, lootList := GrantTier(athena, profile, profile0, catalog, i, loot);
  }

  /** The tier loop of lines 140-326: the tiers lo, ..., hi - 1 in ascending order. */
  method GrantTierRange(athena: Profile, profile: Profile, profile0: Profile, catalog: Catalog, lo: int, hi: int)
    returns (ok: bool, lootList: seq<LootEntry>)
    requires athena != profile && athena != profile0
    requires Ready(View(athena, profile, profile0), profile == profile0)
    modifies athena, profile, profile0
    ensures var r := ApplyTiers(old(View(athena, profile, profile0)), profile == profile0, catalog, lo, hi);
      && ok == r.Ok?
      && (ok ==> View(athena, profile, profile0) == r.value &&
                 lootList == Loot(catalog, old(athena.stats.bookPurchased.flag), lo, hi))
  {
    ghost var s0 := View(athena, profile, profile0);
    lootList := [];
    var i := lo;
    while i < hi
      invariant lo <= i && (i <= hi || i == lo)
      invariant ApplyTiers(s0, profile == profile0, catalog, lo, i) == Ok(View(athena, profile, profile0))
      invariant lootList == Loot(catalog, s0.athena.stats.bookPurchased.flag, lo, i)
    {
      ok, lootList := GrantNextTier(athena, profile, profile0, catalog, s0, lo, i, lootList);
      if !ok {
        ApplyTiersErrPersists(s0, profile == profile0, catalog, lo, i + 1, hi);
        return;
      }
      i := i + 1;
    }
    ok := true;
  }

  /** Lines 329-354: the gift box when the lootList is non-empty, then the revision bumps. */
  method FinalizeGrant(athena: Profile, profile: Profile, profile0: Profile, lootList: seq<LootEntry>, now: string)
    requires athena != profile && athena != profile0
    requires Consistent(View(athena, profile, profile0), profile == profile0)
    modifies athena, profile, profile0
    ensures View(athena, profile, profile0) == Finalize(old(View(athena, profile, profile0)), profile == profile0, lootList, now)
  {
    ghost var s0 := View(athena, profile, profile0);
    ghost var aliased := profile == profile0;
    if |lootList| > 0 {
      var giftBoxId := FreshKey(profile.items);
      profile.items := Put(profile.items, giftBoxId, GiftBox(lootList));
    }
    ghost var s1 := View(athena, profile, profile0);
    assert s1 == if |lootList| > 0
      then WritePrimary(s0, aliased, s0.primary.(items := Put(s0.primary.items, FreshKey(s0.primary.items), GiftBox(lootList))))
      else s0;
    athena.BumpRevision(now);
    ghost var s2 := View(athena, profile, profile0);
    assert s2 == s1.(athena := Bump(s1.athena, now));
    profile.BumpRevision(now);
    ghost var s3 := View(athena, profile, profile0);
    assert s3 == WritePrimary(s2, aliased, Bump(s2.primary, now));
    profile0.BumpRevision(now);
    assert View(athena, profile, profile0) == WriteSecondary(s3, aliased, Bump(s3.secondary, now));
  }

  /** Lines 98-137: give the defaults, then advance book_level by tiersToAdd; the tiers to grant are [startingTier, endingTier). */
  method AdvanceLevel(athena: Profile, profile: Profile, profile0: Profile, tiersToAdd: int)
    returns (startingTier: int, endingTier: int)
    requires athena != profile && athena != profile0
    requires Consistent(View(athena, profile, profile0), profile == profile0)
    modifies athena
    ensures View(athena, profile, profile0) == Advanced(old(View(athena, profile, profile0)), tiersToAdd)
    ensures Ready(View(athena, profile, profile0), profile == profile0)
    ensures startingTier == NormalizeStats(old(athena.stats)).bookLevel.num
    ensures endingTier == startingTier + tiersToAdd
  {
    NormalizeDefaults(athena);
    startingTier := athena.stats.bookLevel.num;
    athena.stats := athena.stats.(bookLevel := JsNumber(athena.stats.bookLevel.num + tiersToAdd));
    endingTier := athena.stats.bookLevel.num;
  }

  /**
    Lines 42-47 and 90-354 of the handler: refuse a non-positive tiersToAdd,
    give the defaults, advance book_level, grant the tiers, add the gift box and
    bump the revisions. `now` is the timestamp the handler takes from the clock.
   */
  method GrantTiers(athena: Profile, profile: Profile, profile0: Profile, catalog: Catalog, tiersToAdd: int, now: string)
    returns (outcome: Outcome)
    requires athena != profile && athena != profile0
    requires Consistent(View(athena, profile, profile0), profile == profile0)
    modifies athena, profile, profile0
    ensures tiersToAdd <= 0 ==> outcome == Refused(InvalidReason) && unchanged(athena, profile, profile0)
    ensures var r := Grant(old(View(athena, profile, profile0)), profile == profile0, catalog, tiersToAdd, now);
      && (r.Ok? ==> outcome.Granted? && outcome.receipt == r.value.1 && View(athena, profile, profile0) == r.value.0)
      && (r.Err? ==> outcome == Refused(r.error))
  {
    if tiersToAdd <= 0 {
      return Refused(InvalidReason);
    }
    ghost var s := View(athena, profile, profile0);
    var startingTier, endingTier := AdvanceLevel(athena, profile, profile0, tiersToAdd);
    var ok, lootList := GrantTierRange(athena, profile, profile0, catalog, startingTier, endingTier);
    if !ok {
      GrantStagesErr(s, profile == profile0, catalog, tiersToAdd, now);
      return Refused(MissingMirrorItem);
    }
    GrantStages(s, profile == profile0, catalog, tiersToAdd, now, View(athena, profile, profile0));
    FinalizeGrant(athena, profile, profile0, lootList, now);
    return Granted(Receipt(tiersToAdd, startingTier, endingTier, |lootList|));
  }
}
