/**
  The battle-pass tier grant of the `/api/reload/bptiers` handler, as functions
  on the values of the three profile documents. `aliased` says that `profile`
  and `profile0` are one object (a document without common_core, or with no
  profile0); every write to either one is then a write to both.
 */
module GrantSpec {
  import opened Text
  import opened Inventory

  /** One `item: quantity` entry of a tier object of the season file, in key order. */
  datatype Line = Line(id: string, quantity: int)

  type Track = seq<Line>

  /** The season file's freeRewards and paidRewards arrays, indexed by tier number. */
  datatype Catalog = Catalog(freeRewards: seq<Track>, paidRewards: seq<Track>)

  datatype GrantError =
    | InvalidReason      // tiersToAdd is not a positive number: refused before anything is touched
    | MissingMirrorItem  // profile0.items[key] is undefined: the handler throws and saves nothing

  datatype Result<T> = Ok(value: T) | Err(error: GrantError)

  /** The three documents: `primary` is `profile`, `secondary` is `profile0`. */
  datatype Snapshot = Snapshot(athena: Doc, primary: Doc, secondary: Doc)

  /** The figures the success response reports. */
  datatype Receipt = Receipt(tiersAdded: int, bookLevelBefore: int, bookLevelAfter: int, lootListCount: nat)

  const XpBoostToken: string := "token:athenaseasonxpboost"
  const FriendXpBoostToken: string := "token:athenaseasonfriendxpboost"
  const CurrencyPrefix: string := "currency:mtx"
  const BannerPrefix: string := "homebasebanner"
  const CosmeticPrefix: string := "athena"
  const GiftBoxTemplate: string := "GiftBox:gb_battlepass"

  /** Every item dictionary is well formed, and aliased documents hold the same value. */
  predicate Consistent(s: Snapshot, aliased: bool)
  {
    && WellFormed(s.athena.items) && WellFormed(s.primary.items) && WellFormed(s.secondary.items)
    && (aliased ==> s.primary == s.secondary)
  }

  /** Consistent, and the stats attributes have been given their defaults. */
  predicate Ready(s: Snapshot, aliased: bool)
  {
    Consistent(s, aliased) && Normalized(s.athena.stats)
  }

  /** `book_level` and `book_purchased` are the same in both snapshots. */
  predicate SameProgress(s: Snapshot, t: Snapshot)
  {
    t.athena.stats.bookLevel == s.athena.stats.bookLevel &&
    t.athena.stats.bookPurchased == s.athena.stats.bookPurchased
  }

  /** An assignment to `profile` (which is also `profile0` when aliased). */
  function WritePrimary(s: Snapshot, aliased: bool, d: Doc): Snapshot
  {
    if aliased then s.(primary := d, secondary := d) else s.(primary := d)
  }

  /** An assignment to `profile0` (which is also `profile` when aliased). */
  function WriteSecondary(s: Snapshot, aliased: bool, d: Doc): Snapshot
  {
    if aliased then s.(primary := d, secondary := d) else s.(secondary := d)
  }

  // ---------------------------------------------------------------------------
  // Defaults

  /** The four `typeof` checks that run before any grant. */
  function NormalizeStats(st: Stats): (r: Stats)
    ensures Normalized(r)
  {
    Stats(
      if st.seasonMatchBoost.JsNumber? then st.seasonMatchBoost else JsNumber(0),
      if st.seasonFriendMatchBoost.JsNumber? then st.seasonFriendMatchBoost else JsNumber(0),
      if st.bookLevel.JsNumber? then st.bookLevel else JsNumber(1),
      if st.bookPurchased.JsBool? then st.bookPurchased else JsBool(false))
  }

  // ---------------------------------------------------------------------------
  // Classification of a reward line by its lower-cased identifier

  datatype Category = SeasonXpBoost | SeasonFriendXpBoost | Currency | Banner | Cosmetic | Generic

  function Classify(id: string): Category
  {
    var l := Lower(id);
    if l == XpBoostToken then SeasonXpBoost
    else if l == FriendXpBoostToken then SeasonFriendXpBoost
    else if StartsWith(l, CurrencyPrefix) then Currency
    else if StartsWith(l, BannerPrefix) then Banner
    else if StartsWith(l, CosmeticPrefix) then Cosmetic
    else Generic
  }

  // ---------------------------------------------------------------------------
  // Currency: the first wallet of `profile`, mirrored into `profile0`

  /** A templateId is present and, lower-cased, starts with "currency:mtx". */
  predicate IsWallet(item: Item)
  {
    item.templateId != "" && StartsWith(Lower(item.templateId), CurrencyPrefix)
  }

  predicate WalletAt(keys: seq<string>, items: map<string, Item>, j: int)
    requires 0 <= j < |keys|
  {
    keys[j] in items && IsWallet(items[keys[j]])
  }

  /** The position of the first wallet at or after `from`, in iteration order. */
  function FirstWallet(keys: seq<string>, items: map<string, Item>, from: nat): (r: Option<nat>)
    requires from <= |keys|
    ensures r.Some? ==> from <= r.value < |keys| && WalletAt(keys, items, r.value)
    ensures r.Some? ==> forall j :: from <= j < r.value ==> !WalletAt(keys, items, j)
    ensures r.None? ==> forall j :: from <= j < |keys| ==> !WalletAt(keys, items, j)
    decreases |keys| - from
  {
    if from == |keys| then None
    else if WalletAt(keys, items, from) then Some(from)
    else FirstWallet(keys, items, from + 1)
  }

  /** A currency line: lines 157-168 of the handler. */
  function GrantCurrency(s: Snapshot, aliased: bool, q: int): (r: Result<Snapshot>)
    requires Ready(s, aliased)
    ensures r.Ok? ==> Ready(r.value, aliased) && r.value.athena == s.athena
    ensures r.Err? ==> r.error == MissingMirrorItem
  {
    var c := s.primary.items;
    match FirstWallet(c.order, c.items, 0)
    case None => Ok(s)
    case Some(i) =>
      var k := c.order[i];
      var s1 := WritePrimary(s, aliased, s.primary.(items := AddQuantity(c, k, q)));
      if k !in s1.secondary.items.items then Err(MissingMirrorItem)
      else Ok(WriteSecondary(s1, aliased, s1.secondary.(items := AddQuantity(s1.secondary.items, k, q))))
  }

  // ---------------------------------------------------------------------------
  // Banners and cosmetics

  /** Some item of the dictionary has the granted templateId, case aside. */
  predicate HasTemplate(c: Container, id: string)
  {
    exists k :: k in c.items && SameTemplate(c.items[k], id)
  }

  /** The scan that sets `item_seen = false` on every item with that templateId. */
  function MarkTemplate(c: Container, id: string): (r: Container)
    ensures r.order == c.order && r.items.Keys == c.items.Keys
  {
    var m := map k | k in c.items :: if SameTemplate(c.items[k], id) then MarkUnseen(c.items[k]) else c.items[k];
    assert m.Keys == c.items.Keys;
    Container(c.order, m)
  }

  function NewBanner(id: string): Item
  {
    Item(id, Attributes(Some(false), Plain), 1)
  }

  function NewCosmetic(id: string, q: int): Item
  {
    Item(id, Attributes(Some(false), CosmeticDetails(0, 1, 0, [], false)), q)
  }

  /** The marking scan leaves a dictionary without the templateId as it was. */
  lemma MarkTemplateWithoutMatch(c: Container, id: string)
    requires !HasTemplate(c, id)
    ensures MarkTemplate(c, id) == c
  {
    assert MarkTemplate(c, id).items == c.items;
  }

  /** The dictionary after the marking scan has visited the first n keys of the order. */
  function MarkFirst(c: Container, id: string, n: nat): map<string, Item>
    requires n <= |c.order|
  {
    if n == 0 then c.items
    else
      var m := MarkFirst(c, id, n - 1);
      var k := c.order[n - 1];
      if k in c.items && SameTemplate(c.items[k], id) then m[k := MarkUnseen(c.items[k])] else m
  }

  /** Whether the scan has found the templateId among the first n keys. */
  function FoundFirst(c: Container, id: string, n: nat): bool
    requires n <= |c.order|
  {
    n > 0 && (FoundFirst(c, id, n - 1) || (c.order[n - 1] in c.items && SameTemplate(c.items[c.order[n - 1]], id)))
  }

  /** The scan only rewrites records: the keys stay those of c. */
  lemma {:induction false} MarkFirstKeys(c: Container, id: string, n: nat)
    requires WellFormed(c) && n <= |c.order|
    ensures MarkFirst(c, id, n).Keys == c.items.Keys
  {
    if n > 0 {
      MarkFirstKeys(c, id, n - 1);
    }
  }

  /** After n steps, the record under the j-th key is marked iff it was visited and matches. */
  lemma {:induction false} MarkFirstAt(c: Container, id: string, n: nat, j: nat)
    requires WellFormed(c) && n <= |c.order| && j < |c.order|
    ensures c.order[j] in c.items && c.order[j] in MarkFirst(c, id, n)
    ensures MarkFirst(c, id, n)[c.order[j]] ==
      if j < n && SameTemplate(c.items[c.order[j]], id) then MarkUnseen(c.items[c.order[j]]) else c.items[c.order[j]]
  {
    KeyAt(c, j);
    if n > 0 {
      MarkFirstAt(c, id, n - 1, j);
      if j < n - 1 {
        KeysDistinct(c, j, n - 1);
      } else if j > n - 1 {
        KeysDistinct(c, n - 1, j);
      }
    }
  }

  /** After n steps, the scan has found a match iff one of the first n keys holds one. */
  lemma {:induction false} FoundFirstAt(c: Container, id: string, n: nat)
    requires n <= |c.order|
    ensures FoundFirst(c, id, n) <==> exists j :: 0 <= j < n && c.order[j] in c.items && SameTemplate(c.items[c.order[j]], id)
  {
    if n > 0 {
      FoundFirstAt(c, id, n - 1);
      if FoundFirst(c, id, n - 1) {
        var j :| 0 <= j < n - 1 && c.order[j] in c.items && SameTemplate(c.items[c.order[j]], id);
        assert 0 <= j < n;
      }
    }
  }

  /** A scan over the whole key order computes MarkTemplate, and finds a match iff there is one. */
  lemma MarkFirstComplete(c: Container, id: string)
    requires WellFormed(c)
    ensures MarkFirst(c, id, |c.order|) == MarkTemplate(c, id).items
    ensures FoundFirst(c, id, |c.order|) == HasTemplate(c, id)
  {
    MarkFirstKeys(c, id, |c.order|);
    FoundFirstAt(c, id, |c.order|);
    var m := MarkFirst(c, id, |c.order|);
    forall k | k in c.items
      ensures m[k] == MarkTemplate(c, id).items[k]
    {
      KeyListed(c, k);
      var j :| 0 <= j < |c.order| && c.order[j] == k;
      MarkFirstAt(c, id, |c.order|, j);
    }
    if HasTemplate(c, id) {
      var k :| k in c.items && SameTemplate(c.items[k], id);
      KeyListed(c, k);
      var j :| 0 <= j < |c.order| && c.order[j] == k;
    }
  }

  /**
    A banner line on `profile`, or a cosmetic line on `athena`: mark every
    matching item as unseen, or add `created` under a new key when there is none.
   */
  function GrantUnique(c: Container, id: string, created: Item): (r: Container)
    requires WellFormed(c)
    ensures WellFormed(r)
    ensures HasTemplate(c, id) ==>
      && r.order == c.order && r.items.Keys == c.items.Keys
      && (forall k :: k in c.items && SameTemplate(c.items[k], id) ==>
            r.items[k] == MarkUnseen(c.items[k]))
      && (forall k :: k in c.items && !SameTemplate(c.items[k], id) ==> r.items[k] == c.items[k])
    ensures !HasTemplate(c, id) ==>
      && FreshKey(c) !in c.items
      && r.order == c.order + [FreshKey(c)]
      && r.items == c.items[FreshKey(c) := created]
  {
    var m := MarkTemplate(c, id);
    if HasTemplate(c, id) then m
    else
      MarkTemplateWithoutMatch(c, id);
      Put(m, FreshKey(m), created)
  }

  // ---------------------------------------------------------------------------
  // One reward line, a track, a tier, a range of tiers

  /** The loot entry every processed line appends. */
  function Entry(line: Line): LootEntry
  {
    LootEntry(line.id, line.id, line.quantity)
  }

  /** Lines 149-154: the two XP-boost counters; `id` is the lower-cased identifier. */
  function BoostStats(st: Stats, id: string, q: int): (r: Stats)
    requires Normalized(st)
    ensures Normalized(r)
  {
    var st1 := if id == XpBoostToken then st.(seasonMatchBoost := JsNumber(st.seasonMatchBoost.num + q)) else st;
    if id == FriendXpBoostToken then st1.(seasonFriendMatchBoost := JsNumber(st1.seasonFriendMatchBoost.num + q)) else st1
  }

  function GrantBoosts(s: Snapshot, id: string, q: int): (r: Snapshot)
    requires Normalized(s.athena.stats)
    ensures Normalized(r.athena.stats)
  {
    s.(athena := s.athena.(stats := BoostStats(s.athena.stats, id, q)))
  }

  /** Lines 171-226: the banner scan on `profile` and the cosmetic scan on `athena`. */
  function GrantUniques(s: Snapshot, aliased: bool, line: Line): (r: Snapshot)
    requires Consistent(s, aliased)
    ensures Consistent(r, aliased) && r.athena.stats == s.athena.stats
  {
    var id := Lower(line.id);
    var s4 := if StartsWith(id, BannerPrefix)
      then WritePrimary(s, aliased, s.primary.(items := GrantUnique(s.primary.items, line.id, NewBanner(line.id))))
      else s;
    if StartsWith(id, CosmeticPrefix)
    then s4.(athena := s4.athena.(items := GrantUnique(s4.athena.items, line.id, NewCosmetic(line.id, line.quantity))))
    else s4
  }

  /** The body of the per-line loop (lines 148-226, 240-317), less the loot entry. */
  function ApplyLine(s: Snapshot, aliased: bool, line: Line): (r: Result<Snapshot>)
    requires Ready(s, aliased)
    ensures r.Ok? ==> Ready(r.value, aliased) && SameProgress(s, r.value)
    ensures r.Err? ==> r.error == MissingMirrorItem
  {
    var id := Lower(line.id);
    var s2 := GrantBoosts(s, id, line.quantity);
    var r3 := if StartsWith(id, CurrencyPrefix) then GrantCurrency(s2, aliased, line.quantity) else Ok(s2);
    match r3
    case Err(e) => Err(e)
    case Ok(s3) => Ok(GrantUniques(s3, aliased, line))
  }

  /** The lines of a track, first to last; the first failure ends the grant. */
  function ApplyLines(s: Snapshot, aliased: bool, lines: Track): (r: Result<Snapshot>)
    requires Ready(s, aliased)
    ensures r.Ok? ==> Ready(r.value, aliased) && SameProgress(s, r.value)
    ensures r.Err? ==> r.error == MissingMirrorItem
    decreases |lines|
  {
    if lines == [] then Ok(s)
    else
      match ApplyLines(s, aliased, lines[..|lines| - 1])
      case Err(e) => Err(e)
      case Ok(s1) => ApplyLine(s1, aliased, lines[|lines| - 1])
  }

  /** `BattlePass.freeRewards[i] || {}`: a tier outside the array grants nothing. */
  function TierAt(rewards: seq<Track>, i: int): Track
  {
    if 0 <= i < |rewards| then rewards[i] else []
  }

  /** One tier: its free lines, then its paid lines when the pass is purchased. */
  function ApplyTier(s: Snapshot, aliased: bool, catalog: Catalog, i: int): (r: Result<Snapshot>)
    requires Ready(s, aliased)
    ensures r.Ok? ==> Ready(r.value, aliased) && SameProgress(s, r.value)
    ensures r.Err? ==> r.error == MissingMirrorItem
  {
    match ApplyLines(s, aliased, TierAt(catalog.freeRewards, i))
    case Err(e) => Err(e)
    case Ok(s1) =>
      if s1.athena.stats.bookPurchased.flag then ApplyLines(s1, aliased, TierAt(catalog.paidRewards, i))
      else Ok(s1)
  }

  /** The tiers lo, lo + 1, ..., hi - 1, in ascending order. */
  function ApplyTiers(s: Snapshot, aliased: bool, catalog: Catalog, lo: int, hi: int): (r: Result<Snapshot>)
    requires Ready(s, aliased)
    ensures r.Ok? ==> Ready(r.value, aliased) && SameProgress(s, r.value)
    ensures r.Err? ==> r.error == MissingMirrorItem
    decreases hi - lo
  {
    if hi <= lo then Ok(s)
    else
      match ApplyTiers(s, aliased, catalog, lo, hi - 1)
      case Err(e) => Err(e)
      case Ok(s1) => ApplyTier(s1, aliased, catalog, hi - 1)
  }

  /** The loot entries of a track, one per line, in order. */
  function Entries(lines: Track): (r: seq<LootEntry>)
    ensures |r| == |lines|
  {
    if lines == [] then [] else Entries(lines[..|lines| - 1]) + [Entry(lines[|lines| - 1])]
  }

  /** The loot entries of one tier. */
  function TierLoot(catalog: Catalog, purchased: bool, i: int): seq<LootEntry>
  {
    if purchased then Entries(TierAt(catalog.freeRewards, i)) + Entries(TierAt(catalog.paidRewards, i))
    else Entries(TierAt(catalog.freeRewards, i))
  }

  /** The lootList after the tiers lo, ..., hi - 1. */
  function Loot(catalog: Catalog, purchased: bool, lo: int, hi: int): seq<LootEntry>
    decreases hi - lo
  {
    if hi <= lo then [] else Loot(catalog, purchased, lo, hi - 1) + TierLoot(catalog, purchased, hi - 1)
  }

  /** Processing one more line of a track, and appending its loot entry. */
  lemma ApplyLinesStep(s: Snapshot, aliased: bool, lines: Track, j: nat)
    requires Ready(s, aliased) && j < |lines|
    ensures ApplyLines(s, aliased, lines[..j + 1]) ==
      match ApplyLines(s, aliased, lines[..j])
      case Err(e) => Err(e)
      case Ok(s1) => ApplyLine(s1, aliased, lines[j])
    ensures Entries(lines[..j + 1]) == Entries(lines[..j]) + [Entry(lines[j])]
  {
    assert lines[..j + 1][..j] == lines[..j];
  }

  /** Once a prefix of a track has thrown, the whole track throws. */
  lemma {:induction false} ApplyLinesErrPersists(s: Snapshot, aliased: bool, lines: Track, j: nat)
    requires Ready(s, aliased) && j <= |lines|
    requires ApplyLines(s, aliased, lines[..j]).Err?
    ensures ApplyLines(s, aliased, lines).Err?
    decreases |lines| - j
  {
    if j < |lines| {
      assert lines[..j + 1][..j] == lines[..j];
      ApplyLinesErrPersists(s, aliased, lines, j + 1);
    } else {
      assert lines[..j] == lines;
    }
  }

  /** Once a tier has thrown, the whole range of tiers throws. */
  lemma {:induction false} ApplyTiersErrPersists(s: Snapshot, aliased: bool, catalog: Catalog, lo: int, mid: int, hi: int)
    requires Ready(s, aliased) && mid <= hi
    requires ApplyTiers(s, aliased, catalog, lo, mid).Err?
    ensures ApplyTiers(s, aliased, catalog, lo, hi).Err?
    decreases hi - mid
  {
    if mid < hi {
      ApplyTiersErrPersists(s, aliased, catalog, lo, mid, hi - 1);
    }
  }

  /** One more tier: tier i applied to the snapshot the tiers lo, ..., i - 1 leave. */
  lemma TiersStep(s: Snapshot, aliased: bool, catalog: Catalog, purchased: bool, lo: int, i: int, cur: Snapshot)
    requires Ready(s, aliased) && lo <= i
    requires ApplyTiers(s, aliased, catalog, lo, i) == Ok(cur)
    ensures Ready(cur, aliased) && SameProgress(s, cur)
    ensures ApplyTiers(s, aliased, catalog, lo, i + 1) == ApplyTier(cur, aliased, catalog, i)
    ensures Loot(catalog, purchased, lo, i + 1) == Loot(catalog, purchased, lo, i) + TierLoot(catalog, purchased, i)
  {
  }

  // ---------------------------------------------------------------------------
  // Gift box and revisions

  function GiftBox(loot: seq<LootEntry>): Item
  {
    Item(GiftBoxTemplate, Attributes(None, GiftBoxDetails(0, "", loot)), 1)
  }

  function Bump(d: Doc, now: string): Doc
  {
    d.(rvn := d.rvn + 1, commandRevision := d.commandRevision + 1, updated := now)
  }

  /** Lines 329-354: the gift box when there is loot, then the three revision bumps. */
  function Finalize(s: Snapshot, aliased: bool, loot: seq<LootEntry>, now: string): (r: Snapshot)
    requires Consistent(s, aliased)
    ensures Consistent(r, aliased)
  {
    var s1 := if |loot| > 0
      then WritePrimary(s, aliased, s.primary.(items := Put(s.primary.items, FreshKey(s.primary.items), GiftBox(loot))))
      else s;
    var s2 := s1.(athena := Bump(s1.athena, now));
    var s3 := WritePrimary(s2, aliased, Bump(s2.primary, now));
    WriteSecondary(s3, aliased, Bump(s3.secondary, now))
  }

  // ---------------------------------------------------------------------------
  // The whole grant

  /** Lines 42-47 and 90-354 of the handler, on the three documents. */
  function Grant(s: Snapshot, aliased: bool, catalog: Catalog, tiersToAdd: int, now: string): (r: Result<(Snapshot, Receipt)>)
    requires Consistent(s, aliased)
    ensures r == Err(InvalidReason) <==> tiersToAdd <= 0
    ensures r.Ok? ==> Consistent(r.value.0, aliased)
  {
    if tiersToAdd <= 0 then Err(InvalidReason)
    else
      var st := NormalizeStats(s.athena.stats);
      var start := st.bookLevel.num;
      var end := start + tiersToAdd;
      match ApplyTiers(Advanced(s, tiersToAdd), aliased, catalog, start, end)
      case Err(e) => Err(e)
      case Ok(s2) =>
        var loot := Loot(catalog, st.bookPurchased.flag, start, end);
        Ok((Finalize(s2, aliased, loot, now), Receipt(tiersToAdd, start, end, |loot|)))
  }

  /** The value the level advance leaves before the first tier is granted. */
  function Advanced(s: Snapshot, tiersToAdd: int): Snapshot
  {
    var st := NormalizeStats(s.athena.stats);
    s.(athena := s.athena.(stats := st.(bookLevel := JsNumber(st.bookLevel.num + tiersToAdd))))
  }

  /** Grant, read as the sequence of its stages. */
  lemma GrantStages(s: Snapshot, aliased: bool, catalog: Catalog, tiersToAdd: int, now: string, s2: Snapshot)
    requires Consistent(s, aliased) && tiersToAdd > 0
    requires var start := NormalizeStats(s.athena.stats).bookLevel.num;
      ApplyTiers(Advanced(s, tiersToAdd), aliased, catalog, start, start + tiersToAdd) == Ok(s2)
    ensures var st := NormalizeStats(s.athena.stats);
      var start := st.bookLevel.num;
      var loot := Loot(catalog, st.bookPurchased.flag, start, start + tiersToAdd);
      Grant(s, aliased, catalog, tiersToAdd, now) ==
        Ok((Finalize(s2, aliased, loot, now), Receipt(tiersToAdd, start, start + tiersToAdd, |loot|)))
  {
  }

  /** A tier that fails makes the whole grant fail with the same error. */
  lemma GrantStagesErr(s: Snapshot, aliased: bool, catalog: Catalog, tiersToAdd: int, now: string)
    requires Consistent(s, aliased) && tiersToAdd > 0
    requires var start := NormalizeStats(s.athena.stats).bookLevel.num;
      ApplyTiers(Advanced(s, tiersToAdd), aliased, catalog, start, start + tiersToAdd).Err?
    ensures Grant(s, aliased, catalog, tiersToAdd, now) == Err(MissingMirrorItem)
  {
  }
}
