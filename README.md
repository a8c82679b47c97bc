# Battle-pass tier grant and feedback-report helpers

This project models two parts of a Fortnite backend emulator in Dafny.

The first is the **battle-pass tier grant** of `/api/reload/bptiers` (`Api/bptiers.js`). Given three profile documents and a season catalog, the grant does the following:

- It gives the athena stats attributes their defaults.
- It moves `book_level` forward by `tiersToAdd`.
- It walks the tiers from the old level up to the new one. For each tier it applies the free track, then the paid track if `book_purchased` is set. Each reward line is one of: an XP-boost counter, V-Bucks (`currency:mtx`, mirrored into `profile0`), a homebase banner on `profile`, an athena cosmetic, or nothing.
- It appends one `lootList` entry per line.
- If that list is non-empty, it adds a `GiftBox:gb_battlepass` holding it.
- It bumps `rvn` and `commandRevision` on all three documents.

`profile` and `profile0` can be the same object (lines 79-80). The model allows this through object identity: the engine's methods take three `Profile` objects and `profile == profile0` is permitted.

The second part is the **feedback-report helpers** of `routes/reports.js`:
- `normalizeType`;
- the per-key cooldown `canAcceptReport` over the module-level `lastReportAt` map;
- the embed field list a report is posted with.

Layout:

- `text.dfy` (`Text`) models the ECMAScript string operations the two files use: `toLowerCase`, `startsWith`, `trim`, `slice(0, n)` and `a || b` on strings.
- `inventory.dfy` (`Inventory`) holds the data:
  - item records with per-category typed attributes;
  - the item dictionary, with its keys in for-in order; assigning a new key appends it;
  - the loosely typed stats attributes;
  - the `Profile` class whose fields the grant updates in place.
- `grant_spec.dfy` (`GrantSpec`) states the grant as functions on the values of the three documents (`Snapshot`), with an `aliased` flag.
- `grant_engine.dfy` (`GrantEngine`) is the handler's own loops and in-place updates, on `Profile` objects. Each method is proved to leave the documents exactly as the matching `GrantSpec` function says.
- `grant_props.dfy` (`GrantProperties`) proves what the grant promises about those functions.
- `reports.dfy` (`Reports`) covers the report type, the cooldown class, the handler's decision sequence and the embed fields.

A thrown `TypeError` is modelled as `Err(MissingMirrorItem)`. It happens when the wallet's key is missing from `profile0.items` (line 165). The handler answers 500 and saves nothing, so the model does not constrain the documents after a failure.

Two behaviours of the currency branch are stated as properties of the model:

- A wallet whose key has no item in a separate `profile0` makes the whole grant fail, with nothing recovered (`GrantProperties.CurrencyMissingMirror`).
- When `profile` and `profile0` are one object, the single wallet item gains the quantity twice (`GrantProperties.CurrencyAliased`).

## Model

| member | source | states |
|---|---|---|
| Text.Take | routes/reports.js:175-186 | `slice(0, n)` gives the whole string when it is no longer than n, and exactly its first n characters otherwise |
| Text.Trim | routes/reports.js:77 | the result is a slice of the input with no trim character at either end; everything cut from the left and from the right is trim characters; it is empty iff every character of the input is a trim character |
| Text.LowerFolds | Api/bptiers.js:149 | `toLowerCase` keeps the length, turns each letter A-Z into the same letter in lower case, and keeps every character that is not one |
| Text.LowerIdempotent | routes/reports.js:78 | lower-casing twice equals lower-casing once |
| Text.TrimOfTrimmed | routes/reports.js:77 | trimming a string that has no trim character at either end gives it back unchanged |
| Text.TrimIdempotent | routes/reports.js:77 | trim applied twice equals trim applied once |
| Inventory.Put | Api/bptiers.js:190 | assigning `items[k]` keeps the dictionary well formed, stores the item under k, and appends k to the key order iff k was new |
| Inventory.AddQuantity | Api/bptiers.js:164-165 | `+=` on one item's quantity adds q to that quantity and changes nothing else: every other item, the item's templateId and attributes, the keys and their order are kept |
| Inventory.FreshKey | Api/bptiers.js:184 | the key MakeID hands out is not already a key of the dictionary |
| Inventory.FreshKeyIsFresh | Api/bptiers.js:330 | a key longer than every key in the order is never one of the dictionary's keys |
| Inventory.KeyListed | Api/bptiers.js:158 | every key of a well-formed dictionary is visited by the for-in loop |
| Inventory.KeysDistinct | Api/bptiers.js:158 | the for-in loop visits no key twice |
| Inventory.Profile.BumpRevision | Api/bptiers.js:344-346 | rvn and commandRevision each rise by one, `updated` becomes the timestamp, and items and stats stay as they were |
| GrantSpec.NormalizeStats | Api/bptiers.js:98-109 | after the defaults, all four stats attributes have the type the grant expects |
| GrantSpec.FirstWallet | Api/bptiers.js:158-166 | finds the first key in iteration order whose item is a wallet, and says there is no wallet at all when it finds none |
| GrantSpec.GrantCurrency | Api/bptiers.js:157-168 | a currency line leaves athena untouched and the documents consistent; its only failure is the missing `profile0` item |
| GrantSpec.MarkTemplate | Api/bptiers.js:172-182 | the marking scan keeps the key order and the set of keys |
| GrantSpec.MarkTemplateWithoutMatch | Api/bptiers.js:172-182 | with no matching templateId the scan changes nothing |
| GrantSpec.MarkFirstAt | Api/bptiers.js:197-208 | after n scan steps, the j-th key's record is marked iff it was visited and matches the templateId case-insensitively |
| GrantSpec.FoundFirstAt | Api/bptiers.js:176-180 | after n steps the ItemExists flag is set iff one of the first n keys holds a matching item |
| GrantSpec.MarkFirstComplete | Api/bptiers.js:172-182 | the scan over the whole order marks exactly the matching items, and it sets ItemExists iff a match exists |
| GrantSpec.GrantUnique | Api/bptiers.js:171-226 | if a match exists, every matching item is marked unseen and every other item and key is kept; otherwise exactly `created` is added under a fresh key at the end of the order |
| GrantSpec.BoostStats | Api/bptiers.js:149-154 | the XP-boost updates keep the stats normalised |
| GrantSpec.GrantUniques | Api/bptiers.js:171-226 | banner and cosmetic grants keep the documents consistent and leave the stats alone |
| GrantSpec.ApplyLine | Api/bptiers.js:148-226 | one line keeps book_level and book_purchased, keeps the documents consistent, and fails only with MissingMirrorItem |
| GrantSpec.ApplyLines | Api/bptiers.js:145-233 | a track keeps book_level and book_purchased and consistency, and fails only with MissingMirrorItem |
| GrantSpec.ApplyTier | Api/bptiers.js:141-236 | one tier (free track, then the paid track if purchased) keeps the progress and consistency, and fails only with MissingMirrorItem |
| GrantSpec.ApplyTiers | Api/bptiers.js:140 | the tier range keeps the progress and consistency, and fails only with MissingMirrorItem |
| GrantSpec.Entries | Api/bptiers.js:228-232 | a track yields exactly one loot entry per line |
| GrantSpec.ApplyLinesErrPersists | Api/bptiers.js:165 | once a line of a track has thrown, the whole track has thrown |
| GrantSpec.ApplyTiersErrPersists | Api/bptiers.js:165 | once a tier has thrown, the whole range of tiers has thrown |
| GrantSpec.Finalize | Api/bptiers.js:329-354 | the gift box and the bumps keep the documents consistent, including `profile == profile0` when aliased |
| GrantSpec.Grant | Api/bptiers.js:42-47 | the grant is refused with InvalidReason iff tiersToAdd <= 0, and a success leaves the documents consistent |
| GrantSpec.GrantStagesErr | Api/bptiers.js:165 | a tier range that throws makes the whole grant fail with MissingMirrorItem |
| GrantEngine.NormalizeDefaults | Api/bptiers.js:98-109 | the in-place `typeof` checks leave athena's stats exactly as NormalizeStats computes them, and change nothing else |
| GrantEngine.GrantCurrencyLine | Api/bptiers.js:157-168 | the wallet loop with its `break` gives exactly GrantCurrency's documents, and reports false exactly when GrantCurrency throws |
| GrantEngine.MarkScan | Api/bptiers.js:172-182 | the scan loop leaves the items as MarkTemplate computes them, and its flag is true iff a matching item exists |
| GrantEngine.GrantUniqueLine | Api/bptiers.js:171-193 | scan, then MakeID and assignment when nothing matched, leave the document exactly as GrantUnique says |
| GrantEngine.GrantBoostLine | Api/bptiers.js:149-154 | the `+=` on the boost counters leaves athena as BoostStats computes and touches nothing else |
| GrantEngine.GrantUniquesTo | Api/bptiers.js:171-226 | the banner step on `profile`, then the cosmetic step on `athena`, equal GrantUniques, aliasing included |
| GrantEngine.ApplyLineTo | Api/bptiers.js:148-226 | the body of the line loop leaves the three objects as ApplyLine says, and fails exactly when ApplyLine does |
| GrantEngine.ApplyTrack | Api/bptiers.js:145-233 | the line loop equals ApplyLines, and the lootList grows by exactly the track's entries, in order |
| GrantEngine.GrantTier | Api/bptiers.js:141-325 | one tier equals ApplyTier: the lootList gains the free entries, then the paid entries iff book_purchased |
| GrantEngine.GrantNextTier | Api/bptiers.js:140-326 | one more pass of the tier loop extends the range already granted by tier i, for both the documents and the lootList |
| GrantEngine.GrantTierRange | Api/bptiers.js:140-326 | the tier loop from startingTier up to endingTier equals ApplyTiers, and its lootList equals Loot over the same tiers |
| GrantEngine.FinalizeGrant | Api/bptiers.js:329-354 | the gift box and the three in-place revision bumps (twice on one object when aliased) equal Finalize |
| GrantEngine.AdvanceLevel | Api/bptiers.js:98-137 | after the defaults, startingTier is the old book_level, endingTier is tiersToAdd higher, and athena's book_level becomes endingTier |
| GrantEngine.GrantTiers | Api/bptiers.js:42-47 | the whole grant refuses a non-positive tiersToAdd without touching anything; otherwise it answers and leaves the documents as Grant says |
| GrantProperties.NormalizeStatsDefaults | Api/bptiers.js:98-109 | an attribute of the right type is kept; otherwise the boosts become 0, book_level 1 and book_purchased false |
| GrantProperties.NormalizeStatsIdempotent | Api/bptiers.js:98-109 | the defaults change the stats iff some attribute is ill-typed, and applying them twice is the same as once |
| GrantProperties.ClassifyExact | Api/bptiers.js:149-196 | Classify is the chain of lower-cased equality and `startsWith` tests; each of the five tests passes exactly when Classify names its category, so no identifier falls in two categories |
| GrantProperties.TokensAreNotPrefixed | Api/bptiers.js:149-154 | an XP-boost token is neither currency, banner nor cosmetic |
| GrantProperties.XpBoostLine | Api/bptiers.js:149-151 | a season XP-boost line adds exactly its quantity to season_match_boost, and changes no item and no other attribute |
| GrantProperties.FriendXpBoostLine | Api/bptiers.js:152-154 | a friend XP-boost line adds exactly its quantity to season_friend_match_boost, and changes nothing else |
| GrantProperties.GenericLine | Api/bptiers.js:145-233 | a line of no known category changes no document |
| GrantProperties.BannerLine | Api/bptiers.js:171-193 | a banner line changes only `profile` (and so `profile0` when they are one object), as GrantUnique with a banner of quantity 1 |
| GrantProperties.CosmeticLine | Api/bptiers.js:196-226 | a cosmetic line changes only athena's items, as GrantUnique with the default cosmetic attributes and the line's quantity |
| GrantProperties.CurrencyLine | Api/bptiers.js:157-168 | a currency line has exactly GrantCurrency's effect on the documents, with the line's quantity |
| GrantProperties.FirstWalletIs | Api/bptiers.js:158-166 | the first wallet in iteration order is the one the currency loop stops at |
| GrantProperties.CurrencyWithoutWallet | Api/bptiers.js:157-168 | with no wallet in `profile` the currency grant is dropped and nothing changes |
| GrantProperties.CurrencyMirrored | Api/bptiers.js:157-168 | with two separate documents the first wallet and the `profile0` item under its key each gain q, every other item and key stays |
| GrantProperties.CurrencyMissingMirror | Api/bptiers.js:165 | with two separate documents and no `profile0` item under the wallet's key, the grant fails with MissingMirrorItem |
| GrantProperties.CurrencyAliased | Api/bptiers.js:79-80 | when `profile0` is `profile` the first wallet gains 2q, the documents stay one, and nothing else changes |
| GrantProperties.MarkUnseenKeeps | Api/bptiers.js:177-179 | MarkUnseen keeps templateId, quantity and the category attributes, sets item_seen false, and is idempotent |
| GrantProperties.GrantUniqueCount | Api/bptiers.js:171-226 | a banner or cosmetic grant keeps the item count when a match exists, and raises it by exactly one otherwise |
| GrantProperties.GrantUniqueAgain | Api/bptiers.js:171-226 | granting the same banner or cosmetic a second time (its new record carrying the templateId and item_seen false, as both kinds do) changes nothing more |
| GrantProperties.EntriesAt | Api/bptiers.js:228-232 | the j-th loot entry of a track is `{itemType: id, itemGuid: id, quantity}` of the j-th line |
| GrantProperties.TierLootOrder | Api/bptiers.js:236-323 | within a tier's loot (TierLoot) the free entries come first, and they are followed by the paid entries iff the pass is purchased |
| GrantProperties.EmptyTier | Api/bptiers.js:141-142 | a tier missing from the season file (TierAt reads it as `{}`), or listed as `{}`, changes nothing and yields no loot |
| GrantProperties.LootSplit | Api/bptiers.js:140 | the lootList of a tier range (Loot) is the lootList of its lower part followed by that of its upper part |
| GrantProperties.ApplyTiersSplit | Api/bptiers.js:140 | tiers are granted in ascending order: the lower part of the range first, then the upper part on its result |
| GrantProperties.ApplyLinesAliasedOk | Api/bptiers.js:79-165 | when `profile0` is `profile` no track ever throws |
| GrantProperties.ApplyTiersAliasedOk | Api/bptiers.js:79-165 | when `profile0` is `profile` no tier range ever throws |
| GrantProperties.GrantAliasedOk | Api/bptiers.js:79-165 | when `profile0` is `profile` a positive tiersToAdd always succeeds |
| GrantProperties.FinalizeEffect | Api/bptiers.js:329-354 | athena rises by one revision; a gift box under a fresh key is appended iff the lootList is non-empty; `profile` rises by one revision, or two when aliased; `profile0` rises by one, or equals `profile` when aliased |
| GrantProperties.GiftBoxContents | Api/bptiers.js:331-339 | the gift box has templateId GiftBox:gb_battlepass, quantity 1, max_level_bonus 0, an empty fromAccountId and the lootList |
| GrantProperties.GrantReceipt | Api/bptiers.js:133-374 | book_level rises by exactly tiersToAdd from the defaulted level; the response reports those two levels and the length of the lootList of the tiers between them; book_purchased keeps its defaulted value |
| Reports.CanonicalType | routes/reports.js:77-82 | the canonical type is never empty and has no trim character at either end |
| Reports.NormalizeType | routes/reports.js:76-83 | the report type is never empty and never padded with white space |
| Reports.NormalizeTypeKnown | routes/reports.js:79-81 | trimmed "bug", "comment" and "player", in any case, become "Bug", "Comment" and "Player" |
| Reports.NormalizeTypeOther | routes/reports.js:82 | any other type is returned trimmed, in its own case, and a blank or empty one becomes "Unknown" |
| Reports.NormalizeTypePrecedence | routes/reports.js:77 | a non-empty route type decides alone, whatever the form says; an empty one defers entirely to the form's type |
| Reports.BlankUrlTypeIsUnknown | routes/reports.js:77 | a route type of white space only hides the form's type and yields "Unknown" |
| Reports.CanonicalTypeIdempotent | routes/reports.js:76-83 | canonicalising a canonical type gives it back |
| Reports.NormalizeTypeIdempotent | routes/reports.js:76-83 | normalising a result once more, as the route type alone, gives it back |
| Reports.ReportKey | routes/reports.js:86 | the key is the account id, a colon, then the type, at known positions |
| Reports.ReportKeyCollision | routes/reports.js:86 | two different account/type pairs can share one key, and so one cooldown |
| Reports.ReportKeyInjective | routes/reports.js:86 | for account ids without a colon, equal keys mean equal accounts and types |
| Reports.ReportLimiter.constructor | routes/reports.js:29 | the cooldown map starts empty |
| Reports.ReportLimiter.CanAcceptReport | routes/reports.js:85-92 | accepts iff at least 15000 ms have passed since the key's last accepted report (an absent key counting as 0); an accepted report records `now`, and a refused report leaves the map unchanged |
| Reports.ReportLimiter.HandleFeedback | routes/reports.js:144-204 | disabled reports post nothing and leave the map alone; otherwise the cooldown key is the resolved account id and the normalised type, and the report is posted with exactly its feedback fields iff the cooldown accepts it |
| Reports.CooldownWindow | routes/reports.js:85-92 | after an accepted report, the next one for the same key is accepted iff it comes at least 15000 ms later |
| Reports.RefusalKeepsCooldown | routes/reports.js:89 | a refused report does not restart the cooldown |
| Reports.CooldownsIndependent | routes/reports.js:86-91 | a report under one key changes neither the record nor the answer for any other key |
| Reports.FirstReport | routes/reports.js:88 | LastReport reads a key never seen as 0, so such a key is accepted iff the clock reads at least 15000 |
| Reports.Dash | routes/reports.js:170-177 | `x \|\| "-"` (OrElse with "-") is never empty and keeps a non-empty x |
| Reports.ReporterFallbacks | routes/reports.js:152-159 | ReportAccountId takes the first non-empty of the signed-in account id, the form's account id and "unknown", and ReporterName the first non-empty of the display name, the username and "Unknown"; neither is ever empty |
| Reports.FeedbackFields | routes/reports.js:170-193 | there are exactly eight base fields, plus one each for a shown DB username, an e-mail address and a correlation id |
| Reports.NamesAppend | routes/reports.js:181-193 | the names of joined field lists are the joined names |
| Reports.BaseFieldNames | routes/reports.js:170-179 | the base fields are Reporter, AccountId, Type, Subject, Body, Platform, EngineVersion, Game, in that order |
| Reports.OptionalFieldNames | routes/reports.js:181-187 | Email is appended iff there is an address, then X-Epic-Correlation-ID iff there is a correlation id |
| Reports.FeedbackFieldNames | routes/reports.js:170-193 | the field names are "DB Username" first when shown, then the eight base names, then Email and X-Epic-Correlation-ID when present |
| Reports.DbUsernameFirst | routes/reports.js:190-193 | the first field is the account record's username iff that name exists and differs from the reporter's display name |
| Reports.BaseFieldValues | routes/reports.js:170-179 | no base field is empty; Reporter and AccountId are the resolved reporter name and account id; the Type field is the normalised type; a given subject, platform and engine version are shown as is and missing ones as "-"; Game joins backend, name and sub-game with " / ", each shown as is or as "-"; a body of at most 1024 characters is kept whole and a longer one is cut to exactly its first 1024 |
| Reports.OptionalFieldValues | routes/reports.js:181-187 | the e-mail and correlation-id values are non-empty, kept whole up to 256 characters, and cut to exactly their first 256 beyond that |

## Left out

- The Express routing, the request and response envelopes, status codes and JSON bodies, and `verifyToken` are transport. Only the outcome and the response figures of lines 366-374 are modelled.
- The user lookup, the profile load and save (`User.findOne`, `Profile.findOne`, `updateOne`) and the toxicity upsert are persistence. The documents are given to the grant as objects. The account record's username is given as a parameter to the report helpers.
- The resolution of `common_core`/`profile0`/`athena` (lines 79-88) is not modelled. The method's caller decides whether `profile` and `profile0` are one object. `athena` must be a third object.
- The `bEnableBattlepass` check and the reason lookup are not modelled; tiersToAdd is an input. `bEnableReports` is a boolean input of `HandleFeedback`.
- The season file read and JSON parse (lines 111-128) are not modelled. The catalog is an input, with each tier's keys in object order.
- `functions.MakeID()` is modelled as `Inventory.FreshKey`. That is one concrete key that is not present. The contracts rely only on its freshness.
- `new Date().toISOString()` is a timestamp parameter. The same value is used for all three documents, while the source reads the clock three times.
- `Date.now()` is the `now` parameter.
- With `profile == profile0`, `updated` is written twice to the same value.
- Discord login and caching, `sendToDiscord`, attachments and the multer limits are network code and foreign libraries, and are not modelled.
- The async ordering of the handlers and concurrent requests sharing `lastReportAt` are not modelled.
- JavaScript numbers are modelled as unbounded integers:
  - non-integer or NaN `tiersToAdd`, `book_level`, quantities and clock readings are not modelled;
  - a quantity that is not a number, which would make `+=` concatenate or give NaN, is outside the model;
  - an absent `rvn` is read as 0, which is what `|| 0` does.
- `toLowerCase` folds only the letters A-Z. Other Unicode case mappings are not modelled.
- `slice` and string lengths count characters of `string`, not UTF-16 code units.
- Integer-like keys, which for-in visits first in numeric order, are not modelled. Keys are visited in insertion order.
- The state after a thrown `TypeError` is left unconstrained. The handler discards it, and nothing is saved.
- Every request field is modelled as a string: the correlation-id header, and the multipart form fields such as `feedbacktype` or `email`, which arrive as arrays when sent twice. `.toString()`, `.trim()` and `.slice(0, 256)` on an array are not represented.
- The `|| "-"` fallbacks on the Reporter and AccountId fields never change the value. Both names are already non-empty after their own `||` chains. The model applies them anyway, as the source does.
- The toxicity endpoint and the other routes of `routes/reports.js` are not part of this model.
