/**
  The profile documents the battle-pass grant works on: item records with typed
  attributes, the item dictionary of a profile (keys in iteration order), the
  loosely typed stats attributes of the athena profile, and the Profile object
  whose fields the grant updates in place.
 */
module Inventory {
  import opened Text

  datatype Option<T> = None | Some(value: T)

  /** One entry of a gift box's lootList. */
  datatype LootEntry = LootEntry(itemType: string, itemGuid: string, quantity: int)

  /** The category-specific part of an item's attributes object. */
  datatype Details =
    | Plain   // no field the grant knows of (wallets, banners, a missing attributes object)
    | CosmeticDetails(maxLevelBonus: int, level: int, xp: int, variants: seq<string>, favorite: bool)
    | GiftBoxDetails(maxLevelBonus: int, fromAccountId: string, lootList: seq<LootEntry>)

  /** An attributes object: `item_seen`, which the grant sets on any category, and the rest. */
  datatype Attributes = Attributes(itemSeen: Option<bool>, details: Details)

  /** An item record; a missing or empty templateId is written "". */
  datatype Item = Item(templateId: string, attributes: Attributes, quantity: int)

  /**
    A profile's `items` object: the keys in for-in order and the records they
    hold. Assigning a new key appends it to the order; assigning an existing key
    keeps its place.
   */
  datatype Container = Container(order: seq<string>, items: map<string, Item>)

  /**
    The first n keys of order list every element of keys exactly once and
    nothing else; the last of them is the key assigned most recently.
   */
  predicate Lists(order: seq<string>, keys: set<string>, n: nat)
    requires n <= |order|
  {
    if n == 0 then keys == {}
    else order[n - 1] in keys && Lists(order, keys - {order[n - 1]}, n - 1)
  }

  /** Every position among the first n holds one of the keys. */
  lemma {:induction false} ListsAt(order: seq<string>, keys: set<string>, n: nat, i: nat)
    requires n <= |order| && Lists(order, keys, n) && i < n
    ensures order[i] in keys
  {
    if i < n - 1 {
      ListsAt(order, keys - {order[n - 1]}, n - 1, i);
    }
  }

  /** Every key occurs among the first n positions. */
  lemma {:induction false} ListsAll(order: seq<string>, keys: set<string>, n: nat, k: string)
    requires n <= |order| && Lists(order, keys, n) && k in keys
    ensures exists i :: 0 <= i < n && order[i] == k
  {
    if order[n - 1] != k {
      ListsAll(order, keys - {order[n - 1]}, n - 1, k);
    }
  }

  /** Two of the first n positions hold different keys. */
  lemma {:induction false} ListsDistinct(order: seq<string>, keys: set<string>, n: nat, i: nat, j: nat)
    requires n <= |order| && Lists(order, keys, n) && i < j < n
    ensures order[i] != order[j]
  {
    if j < n - 1 {
      ListsDistinct(order, keys - {order[n - 1]}, n - 1, i, j);
    } else {
      ListsAt(order, keys - {order[n - 1]}, n - 1, i);
    }
  }

  /** Only the first n positions matter. */
  lemma {:induction false} ListsAppend(order: seq<string>, k: string, keys: set<string>, n: nat)
    requires n <= |order|
    ensures Lists(order + [k], keys, n) == Lists(order, keys, n)
  {
    if n > 0 {
      assert (order + [k])[n - 1] == order[n - 1];
      ListsAppend(order, k, keys - {order[n - 1]}, n - 1);
    }
  }

  /** The order lists every key of the dictionary exactly once. */
  predicate WellFormed(c: Container)
  {
    Lists(c.order, c.items.Keys, |c.order|)
  }

  /** Position i of a well-formed order holds a key of the dictionary. */
  lemma KeyAt(c: Container, i: nat)
    requires WellFormed(c) && i < |c.order|
    ensures c.order[i] in c.items
  {
    ListsAt(c.order, c.items.Keys, |c.order|, i);
  }

  /** Every key of a well-formed dictionary has a position in the order. */
  lemma KeyListed(c: Container, k: string)
    requires WellFormed(c) && k in c.items
    ensures exists i :: 0 <= i < |c.order| && c.order[i] == k
  {
    ListsAll(c.order, c.items.Keys, |c.order|, k);
  }

  /** No key has two positions in a well-formed order. */
  lemma KeysDistinct(c: Container, i: nat, j: nat)
    requires WellFormed(c) && i < j < |c.order|
    ensures c.order[i] != c.order[j]
  {
    ListsDistinct(c.order, c.items.Keys, |c.order|, i, j);
  }

  /** `items[k] = item`. */
  function Put(c: Container, k: string, item: Item): (r: Container)
    requires WellFormed(c)
    ensures WellFormed(r)
    ensures r.items == c.items[k := item]
    ensures r.order == if k in c.items then c.order else c.order + [k]
  {
    if k in c.items then
      assert c.items[k := item].Keys == c.items.Keys;
      Container(c.order, c.items[k := item])
    else
      assert c.items[k := item].Keys - {k} == c.items.Keys;
      ListsAppend(c.order, k, c.items.Keys, |c.order|);
      Container(c.order + [k], c.items[k := item])
  }

  /** `items[k].quantity += q`. */
  function AddQuantity(c: Container, k: string, q: int): (r: Container)
    requires WellFormed(c) && k in c.items
    ensures WellFormed(r) && r.order == c.order && r.items.Keys == c.items.Keys
    ensures r.items[k].quantity == c.items[k].quantity + q
    ensures r.items == c.items[k := c.items[k].(quantity := c.items[k].quantity + q)]
  {
    Put(c, k, c.items[k].(quantity := c.items[k].quantity + q))
  }

  /** The length of the longest of the keys at positions from, from + 1, .... */
  function MaxKeyLength(keys: seq<string>, from: nat): nat
    requires from <= |keys|
    decreases |keys| - from
  {
    if from == |keys| then 0
    else
      var m := MaxKeyLength(keys, from + 1);
      if |keys[from]| > m then |keys[from]| else m
  }

  lemma {:induction false} MaxKeyLengthBound(keys: seq<string>, from: nat, i: nat)
    requires from <= i < |keys|
    ensures |keys[i]| <= MaxKeyLength(keys, from)
    decreases i - from
  {
    if from < i {
      MaxKeyLengthBound(keys, from + 1, i);
    }
  }

  /** A string of n '#' characters. */
  function Padding(n: nat): (r: string)
    ensures |r| == n
  {
    if n == 0 then "" else Padding(n - 1) + "#"
  }

  /** A key longer than every key of the order is not a key of a well-formed dictionary. */
  lemma FreshKeyIsFresh(c: Container)
    requires WellFormed(c)
    ensures Padding(MaxKeyLength(c.order, 0) + 1) !in c.items
  {
    var k := Padding(MaxKeyLength(c.order, 0) + 1);
    if k in c.items {
      KeyListed(c, k);
      var i :| 0 <= i < |c.order| && c.order[i] == k;
      MaxKeyLengthBound(c.order, 0, i);
    }
  }

  /**
    The key functions.MakeID() hands out. Only its freshness matters to the
    grant; this choice (a key longer than every key present) is one of many.
   */
  function FreshKey(c: Container): (k: string)
    requires WellFormed(c)
    ensures k !in c.items
  {
    FreshKeyIsFresh(c);
    Padding(MaxKeyLength(c.order, 0) + 1)
  }

  /** `templateId` is present and equal to id when both are lower-cased. */
  predicate SameTemplate(item: Item, id: string)
  {
    item.templateId != "" && Lower(item.templateId) == Lower(id)
  }

  /** `attributes = attributes || {}; attributes.item_seen = false`. */
  function MarkUnseen(item: Item): Item
  {
    item.(attributes := item.attributes.(itemSeen := Some(false)))
  }

  /** A value stored under a stats attribute key, as JSON gives it. */
  datatype JsValue = JsUndefined | JsNumber(num: int) | JsBool(flag: bool) | JsString(str: string)

  /** The four keys of `athena.stats.attributes` that the grant reads or writes. */
  datatype Stats = Stats(
    seasonMatchBoost: JsValue,
    seasonFriendMatchBoost: JsValue,
    bookLevel: JsValue,
    bookPurchased: JsValue)

  /** Every one of the four keys holds a value of the type the grant expects. */
  predicate Normalized(st: Stats)
  {
    st.seasonMatchBoost.JsNumber? && st.seasonFriendMatchBoost.JsNumber? &&
    st.bookLevel.JsNumber? && st.bookPurchased.JsBool?
  }

  /**
    The value of one profile document; `rvn` and `commandRevision` are written
    0 when absent, which is what `(x || 0)` reads them as.
   */
  datatype Doc = Doc(items: Container, stats: Stats, rvn: int, commandRevision: int, updated: string)

  /** A profile document (common_core, profile0 or athena), updated in place. */
  class Profile {
    var items: Container
    var stats: Stats
    var rvn: int
    var commandRevision: int
    var updated: string

    predicate Valid()
      reads this
    {
      WellFormed(items)
    }

    function Value(): Doc
      reads this
    {
      Doc(items, stats, rvn, commandRevision, updated)
    }

    constructor (d: Doc)
      requires WellFormed(d.items)
      ensures Value() == d && Valid()
    {
      items, stats, rvn, commandRevision, updated := d.items, d.stats, d.rvn, d.commandRevision, d.updated;
    }

    /** `rvn = (rvn || 0) + 1; commandRevision = (commandRevision || 0) + 1; updated = now`. */
    method BumpRevision(now: string)
      modifies this
      ensures Value() == old(Value()).(rvn := old(rvn) + 1, commandRevision := old(commandRevision) + 1, updated := now)
    {
      rvn := rvn + 1;
      commandRevision := commandRevision + 1;
      updated := now;
    }
  }
}
