# Provider catalog projection

A Dafny model of the provider-catalog projection of the seller
application's `OrganizationService`. For each organization with a store
location, the projection assembles a network-facing *provider* document:
- a descriptor;
- one synthetic-id location;
- a `fulfillments` map;
- a `categories` map from custom menus and customization groups;
- an `items` map from products, back-filled with custom-menu memberships;
- a `tags` list of store timings plus one serviceability tag;
- three caches read off the assembled maps.

The model also covers the location label of the store-update notification
sent to the core service. It contrasts that label with the label in the
catalog.

JavaScript objects used as maps are modelled as ordered association lists
(`OrderedMap.OMap`).
- Assigning `o[k] = v` is `Put`: it replaces the value in place or appends
  the key.
- The spread `{...a, ...b}` is `Merge`.

The inputs are fields of `Records.OrgRecord`: the organization, its menus,
menu timings, groups, products, group mappings and menu memberships. They
are taken as already fetched, filtered and sorted. The asset resolver is the
parameter `sign`. The rendered "yesterday" timestamp is the parameter
`timestamp`.

A failure aborts the whole batch. It is a `Result` failure in four cases
where the source throws:
- an organization without `storeDetails` (one that signed up but never set
  its store), because line 487 reads `.location` of `undefined`;
- a store whose `location` is `null`: the skip test at line 487 compares
  with `=== undefined` only, and line 66 then reads `.lat` of `null`;
- a store with a location but without `storeTiming`, because line 68 reads `.status`
  of `undefined`;
- a custom-menu membership naming a product whose entry has no
  `category_ids`, i.e. a product that is not of type `item`. Lines 351
  and 425 then make the code call `push` on `undefined`.

Modules:
- `OrderedMap`: JavaScript object semantics.
- `Text`: `format_time_hhmm`, and number and boolean `toString`.
- `Records`: the input data model.
- `Timing`: `build_timing_tags`.
- `Categories`: the categories block.
- `Items`: the items block.
- `Store`: the descriptor, location, fulfillment and tags blocks, and the
  core notification.
- `Batch`: the skip-build-or-abort shape of the per-organization loop.
- `Provider`: the per-organization loop and the caches.
- `ProviderCaches` and `ProviderLinks`: properties of assembled providers.
- `Scenarios`: small worked cases.

## Model

| member | source | states |
|---|---|---|
| Text.FormatTimeHhmm | seller/app/modules/authentication/v1/services/organization.service.js:37-39 | Without a colon the text is unchanged; otherwise exactly the first colon is removed and the characters before and after it are kept in order |
| Text.FormatTimeRemovesOneColon | seller/app/modules/authentication/v1/services/organization.service.js:37-39 | With a colon the result is one character shorter and has the same characters minus one colon |
| Text.FormatTimeOfHourMinute | seller/app/modules/authentication/v1/services/organization.service.js:37-39 | A time `hh:mm` becomes `hhmm` when `hh` has no colon; `mm` is kept whole, so a later colon in it survives (string `replace` drops the first match only) |
| Text.FormatTimeExample | seller/app/modules/authentication/v1/services/organization.service.js:37-39 | a stored "09:30" is carried as "0930" |
| Text.NatToDecimal | seller/app/modules/authentication/v1/services/organization.service.js:122 | A number's `toString` is a non-empty string of digits without a leading zero |
| Text.DecimalRoundTrip | seller/app/modules/authentication/v1/services/organization.service.js:122 | Reading the decimal text back gives the number |
| Text.IntToDecimalInjective | seller/app/modules/authentication/v1/services/organization.service.js:181 | Distinct numbers render as distinct strings, so ranks and `menu:seq` ids of different numbers stay apart |
| OrderedMap.Put | seller/app/modules/authentication/v1/services/organization.service.js:100 | Assigning to a key already present replaces that entry in place; a new key is appended at the end |
| OrderedMap.MergeValid | seller/app/modules/authentication/v1/services/organization.service.js:256-259 | A spread has no duplicate keys and keeps every key of both sides |
| OrderedMap.MergeIsOverlayThenFresh | seller/app/modules/authentication/v1/services/organization.service.js:256-259 | A spread is the left object's entries in order, with the right side's value wherever it has the key, followed by the right side's new keys in order |
| OrderedMap.MergeDisjoint | seller/app/modules/authentication/v1/services/organization.service.js:256-259 | The spread of two objects with disjoint keys is the left entries followed by the right entries |
| OrderedMap.FromDistinctEntries | seller/app/modules/authentication/v1/services/organization.service.js:98-108 | Assigning entries with distinct keys in a loop builds exactly those entries in order |
| Records.SignAll | seller/app/modules/authentication/v1/services/organization.service.js:150-155 | Image paths are resolved one by one and order is preserved, so the first URL belongs to the first path |
| Timing.TimingTag | seller/app/modules/authentication/v1/services/organization.service.js:117-137 | A window's tag has code "timing" and the four entries `day_from`, `day_to`, `time_from` and `time_to`, holding the range's first and last day numbers in decimal and the window's start and end with the first colon removed |
| Timing.BuildTimingTags | seller/app/modules/authentication/v1/services/organization.service.js:113-142 | The number of tags is the sum of the window counts of the entries, and every tag has the timing shape |
| Timing.TimingTagsConcat | seller/app/modules/authentication/v1/services/organization.service.js:113-142 | The tags of two runs of entries are the two runs' tags end to end, with the counts adding up |
| Timing.TimingTagsOrder | seller/app/modules/authentication/v1/services/organization.service.js:115-139 | Window `j` of entry `i` gives the tag at position (windows of earlier entries) + `j` (entry-then-window order) |
| Categories.AttachMenuTimings | seller/app/modules/authentication/v1/services/organization.service.js:189-198 | Menu timing rows keep the keys and order; each menu gains the timing tags of every row naming it, in row order, and rows naming no menu are skipped |
| Categories.MenuCategoryOf | seller/app/modules/authentication/v1/services/organization.service.js:157-186 | A menu's entry has the menu's id, an empty parent, its name and both descriptions, its images signed in order, then exactly the `custom_menu` type tag and the `display` tag holding its rank in decimal |
| Categories.BuildMenuBlock | seller/app/modules/authentication/v1/services/organization.service.js:144-201 | The menu half has no duplicate keys; every menu's id is a key and every key is some menu's id (entries and order: Categories.MenuBlockOfDistinctMenus) |
| Categories.MenuBlockOfDistinctMenus | seller/app/modules/authentication/v1/services/organization.service.js:144-201 | With distinct menu ids there is one entry per menu, in menu order, each with its timing tags appended after the `type` and `display` tags |
| Categories.BuildGroupBlock | seller/app/modules/authentication/v1/services/organization.service.js:203-249 | The group half has no duplicate keys; every group's id is a key and every key is some group's id |
| Categories.GroupCategoryOf | seller/app/modules/authentication/v1/services/organization.service.js:207-246 | A group's entry has its id and name, the `custom_group` type tag, and a `config` tag with `min`, `max`, `input` and `seq` in that order, the numbers rendered in decimal |
| Categories.GroupBlockOfDistinctGroups | seller/app/modules/authentication/v1/services/organization.service.js:203-249 | With distinct group ids the group half has one entry per group, in group order, each being that group's entry |
| Categories.BuildCategories | seller/app/modules/authentication/v1/services/organization.service.js:251-260 | The category map has no duplicate keys; every menu id and every group id is a key, and every key is a menu id or a group id (layout: Categories.CategoriesLayout) |
| Categories.CategoriesLayout | seller/app/modules/authentication/v1/services/organization.service.js:251-260 | The category map holds the menu entries, with a group entry overwriting in place a menu entry of the same id, followed by the remaining group entries |
| Categories.CategoriesOfDisjointIds | seller/app/modules/authentication/v1/services/organization.service.js:256-259 | When no group reuses a menu id, the map is the menu entries followed by the group entries |
| Categories.CategoriesWellTagged | seller/app/modules/authentication/v1/services/organization.service.js:166-175 | Every category opens with the `type` tag naming its origin, custom menu or custom group |
| Items.FirstMatch | seller/app/modules/authentication/v1/services/organization.service.js:327-332 | The scan stops at the first option whose type matches, and at the end when none matches |
| Items.FulfillmentIdFor | seller/app/modules/authentication/v1/services/organization.service.js:326-332 | The fulfillment id is the id of the first store option of the product's type, or "" when no option matches |
| Items.VegFlag | seller/app/modules/authentication/v1/services/organization.service.js:316-318 | The `veg` value is "yes" exactly for "VEG" or "veg", and "no" otherwise |
| Items.MappingsFor | seller/app/modules/authentication/v1/services/organization.service.js:381-383 | The mapping rows of a customization are rows of the table naming it, and every row naming it is among them; with Items.MappingsForConcat they are exactly those rows, in table order and with repeats |
| Items.MappingsForConcat | seller/app/modules/authentication/v1/services/organization.service.js:381-383 | Selecting the rows of a product from two runs of the table gives the two selections end to end, so the rows keep table order (which decides the order of the `child` tag, lines 404-411) |
| Items.ChildIds | seller/app/modules/authentication/v1/services/organization.service.js:404-411 | The child ids are the non-empty child ids of the rows, in row order; there are none exactly when every child is empty |
| Items.RelationTags | seller/app/modules/authentication/v1/services/organization.service.js:384-415 | No rows give no tags. Otherwise the `parent` tag comes from row 0 with default "yes" or "no". A `child` tag follows exactly when some row has a child, listing every non-empty child id |
| Items.BuildItem | seller/app/modules/authentication/v1/services/organization.service.js:272-416 | Each product gives an entry with: its id and name; the unit, amount, available and maximum counts in decimal; price in "INR" with value and maximum both the MRP in decimal; `related` exactly when the type is not "item"; veg "yes" exactly for "VEG" or "veg". An item also gets its listing (Items.ListingOf), subcategory-or-"F&B" category and optional `custom_group` tag. A customization also gets its relation tags. Any other type keeps only the two base tags |
| Items.ListingOf | seller/app/modules/authentication/v1/services/organization.service.js:325-364 | An item's listing: the first signed image as symbol (absent when there are no images), the short and long descriptions, every image signed in order, empty `category_ids`, the first matching fulfillment's id, not recommended, no seller pickup return, ship time "PT45M", returnable, cancellable and cash-on-delivery as "true"/"false", the return window, and the consumer-care line "name,email,mobile" |
| Items.ChildIdsConcat | seller/app/modules/authentication/v1/services/organization.service.js:404-411 | The child ids of two runs of rows are the two runs' child ids end to end |
| Items.MappingsForHead | seller/app/modules/authentication/v1/services/organization.service.js:384-394 | The parent tag comes from the first table row that names the product |
| Items.MembershipId | seller/app/modules/authentication/v1/services/organization.service.js:426 | A membership id is the menu id, then a colon, then the rank in decimal |
| Items.MembershipIdInjective | seller/app/modules/authentication/v1/services/organization.service.js:426 | For menu ids without a colon, equal membership ids have the same menu and the same rank |
| Items.BackFill | seller/app/modules/authentication/v1/services/organization.service.js:420-429 | The back-fill succeeds exactly when no row names an entry without `category_ids`. On success keys, order and every other field are kept, and each entry gains the `menu:seq` ids of the rows naming it, in row order. On failure the error names a product whose entry has no `category_ids` |
| Items.AddTwice | seller/app/modules/authentication/v1/services/organization.service.js:425-427 | Appending ids row by row equals appending them all at once |
| Items.ItemBlockSucceedsIff | seller/app/modules/authentication/v1/services/organization.service.js:262-432 | With distinct product ids the items block fails exactly when a membership names a product that is not an item |
| Items.BuildItemBlock | seller/app/modules/authentication/v1/services/organization.service.js:262-432 | A successful items block has no duplicate keys; every product's id is a key and every key is some product's id (when it succeeds: Items.ItemBlockSucceedsIff; entries: Items.ItemBlockOfDistinctProducts) |
| Items.ItemBlockOfDistinctProducts | seller/app/modules/authentication/v1/services/organization.service.js:262-432 | With distinct product ids the block has one entry per product, in product order, each with the category ids of the memberships naming it |
| Store.BuildProviderDetails | seller/app/modules/authentication/v1/services/organization.service.js:41-56 | The organization's name is the name and both descriptions; the logo is resolved once and is the symbol and the only image |
| Store.LocationLabel | seller/app/modules/authentication/v1/services/organization.service.js:68 | The catalog label is "disable" exactly when the timing status is "disabled", and "enable" otherwise |
| Store.BuildLocationBlock | seller/app/modules/authentication/v1/services/organization.service.js:58-94 | The location has the synthetic id, gps "lat,long", the label `LocationLabel` of the timing status, the given timestamp, days "1,2,3,4,5,6,7", a schedule of the store's holidays with frequency "PT4H" and times "0001" and "2359", the range "0001" to "2359", the address with the building as street and locality, city, area code and state copied, and the support mobile as phone |
| Store.FulfillmentEntries | seller/app/modules/authentication/v1/services/organization.service.js:100-107 | One entry per option in option order, keyed by the option's id and carrying that id, its type, and its contact phone and email |
| Store.BuildFulfillmentBlock | seller/app/modules/authentication/v1/services/organization.service.js:96-111 | The block has no duplicate keys; every option's id is a key, and every key is some option's id |
| Store.FulfillmentBlockOfDistinctIds | seller/app/modules/authentication/v1/services/organization.service.js:96-111 | With distinct option ids the block lists the options in order with their id, type and contact |
| Store.ServiceabilityTag | seller/app/modules/authentication/v1/services/organization.service.js:439-463 | The serviceability tag lists, in order, the store location's id, category "F&B", type "10", and the radius value and unit |
| Store.BuildTagsBlock | seller/app/modules/authentication/v1/services/organization.service.js:434-468 | The tags are the timing tags of the enabled windows, one per window, followed by one final serviceability tag |
| Store.CoreLabel | seller/app/modules/authentication/v1/services/organization.service.js:905-909 | The notification label is "disable" exactly for a disabled store, "close" exactly for a closed one, and "enable" otherwise, including a store without timing |
| Store.BuildStoreUpdateRequest | seller/app/modules/authentication/v1/services/organization.service.js:883-910 | An organization without store details fails, naming it (line 905 reads `storeTiming` of `undefined`). Otherwise the request names the organization and the synthetic location, with the core label of its timing; a range is carried exactly when the label is "close", and it is then the store timing |
| Store.LabelsAgreeExceptClosed | seller/app/modules/authentication/v1/services/organization.service.js:68 | The catalog label and the notification label agree on every status except "closed", where the catalog says "enable" and the notification says "close" |
| Provider.BuildProvider | seller/app/modules/authentication/v1/services/organization.service.js:489-526 | A non-skipped organization builds exactly when its location is set (not `null`), it has store timing, and its items block builds. A `null` location fails first, naming the organization; then a missing timing, naming the organization; otherwise a failure is the items block's error |
| Provider.ProviderShape | seller/app/modules/authentication/v1/services/organization.service.js:489-526 | A provider the loop builds comes from an organization with store details, a set location and a timing, and has: the organization's id; network logistics; ttl "P1D"; label "enable" exactly when the organization is enabled; one synthetic location; the three blocks; timing tags followed by the serviceability tag; the three caches of its maps |
| Provider.ProviderStoreBlocks | seller/app/modules/authentication/v1/services/organization.service.js:497-504 | A built provider's descriptor is the organization's detail block, and its only location is the synthetic id mapped to the location block of the store's location, timing and the timestamp; a "closed" store is therefore listed "enable" while its store-update notification says "close" |
| Provider.SelectOrgs | seller/app/modules/authentication/v1/services/organization.service.js:477-482 | A given id selects the organizations with that id, and an absent id selects all of them |
| Provider.GetOrgsDetailsFor | seller/app/modules/authentication/v1/services/organization.service.js:470-538 | Without an id the call runs over every organization; a successful call returns at most one provider per organization |
| Provider.SelectedProviderIds | seller/app/modules/authentication/v1/services/organization.service.js:477-482 | With an id given, every provider a successful call returns carries that id |
| Batch.CollectSucceedsIff | seller/app/modules/authentication/v1/services/organization.service.js:485-531 | A run of the loop succeeds exactly when every element is skipped or builds; one failure anywhere aborts the whole run |
| Batch.CollectAt | seller/app/modules/authentication/v1/services/organization.service.js:485-529 | In a successful run the value at position `i` is the one built from the `i`-th element that was not skipped, so there is one value per kept element |
| Batch.CollectFirstFailure | seller/app/modules/authentication/v1/services/organization.service.js:485-537 | A failed run reports the error of the first element that fails, every earlier element having been skipped or built |
| Provider.ProjectOrg | seller/app/modules/authentication/v1/services/organization.service.js:486-488 | An organization without store details fails, naming it; one whose location is missing (`undefined`) is skipped; any other, a `null` location included, is built |
| Provider.KeptIsNotSkipped | seller/app/modules/authentication/v1/services/organization.service.js:486-488 | The organizations the loop hands to its body are, in order, all but those whose store has no location (those without store details included, which then fail) |
| Provider.GetOrgsDetailsForOndc | seller/app/modules/authentication/v1/services/organization.service.js:470-538 | A successful batch has at most one provider per organization (success, count, order and errors: the Provider.Orgs* rows) |
| Provider.OrgsSucceedIff | seller/app/modules/authentication/v1/services/organization.service.js:485-531 | The batch succeeds exactly when every organization is either skipped or builds; a successful batch had no organization without store details and no `null` location |
| Provider.OrgsProviderAt | seller/app/modules/authentication/v1/services/organization.service.js:485-529 | On success the provider at position `i` is the one the loop body builds from the `i`-th organization that is not skipped |
| Provider.OrgsCountAndIds | seller/app/modules/authentication/v1/services/organization.service.js:485-529 | The output has as many providers as there are organizations that are not skipped, with their ids in order |
| Provider.OrgsFirstFailure | seller/app/modules/authentication/v1/services/organization.service.js:470-538 | A failed batch reports the error of the first organization that is neither skipped nor built |
| Provider.ItemNameCache | seller/app/modules/authentication/v1/services/organization.service.js:514-518 | A name is in the item name cache exactly when some entry that is not `related` has it; with Provider.ItemNameCacheConcat the names follow map order |
| Provider.ItemNameCacheConcat | seller/app/modules/authentication/v1/services/organization.service.js:514-518 | The cache of two runs of entries is the two runs' caches end to end, so names come out in map order |
| Provider.CategoryNameCache | seller/app/modules/authentication/v1/services/organization.service.js:519-523 | A name is in the category cache exactly when some category in map order passes the `custom_menu` test and has that name |
| Provider.FulfillmentTypeCache | seller/app/modules/authentication/v1/services/organization.service.js:524-526 | The fulfillment cache has one type per fulfillment entry, in map order |
| ProviderCaches.ItemCacheOfDistinctProducts | seller/app/modules/authentication/v1/services/organization.service.js:514-518 | With distinct product ids the item name cache lists the names of the `item` products in product order |
| ProviderCaches.BackFillKeepsNameCache | seller/app/modules/authentication/v1/services/organization.service.js:420-429 | The membership back-fill leaves the item name cache unchanged: it touches only `category_ids` |
| ProviderCaches.CategoryNameCacheIsMenuNames | seller/app/modules/authentication/v1/services/organization.service.js:519-523 | On well-tagged categories the "custom_menu" test picks out exactly the entries that came from menus |
| ProviderCaches.CategoryCacheOfMenus | seller/app/modules/authentication/v1/services/organization.service.js:519-523 | The category name cache lists the names of the menu-derived categories in map order |
| ProviderCaches.CategoryCacheOfDistinctMenus | seller/app/modules/authentication/v1/services/organization.service.js:519-523 | With distinct menu ids that no group reuses, the category name cache lists the menu names in menu order |
| ProviderCaches.FulfillmentCacheOfDistinctIds | seller/app/modules/authentication/v1/services/organization.service.js:524-526 | With distinct fulfillment ids the type cache lists every store fulfillment's type in store order |
| ProviderLinks.ItemFulfillmentsResolve | seller/app/modules/authentication/v1/services/organization.service.js:326-353 | Every item's fulfillment id is "" or a key of the provider's fulfillments map |
| Scenarios.DeliveredItem | seller/app/modules/authentication/v1/services/organization.service.js:326-353 | With one store option "F1" of type "delivery", an item to be delivered gets a listing with fulfillment id "F1" |
| Scenarios.MappedCustomization | seller/app/modules/authentication/v1/services/organization.service.js:384-415 | A customization mapped from G1 (default) to G2 gets four tags: the two base tags, then the parent tag (G1, "yes"), then a child tag listing G2 |
| Scenarios.TwoProductOrganization | seller/app/modules/authentication/v1/services/organization.service.js:262-432 | Setup: store option "F1" of type "delivery", an item P1 to be delivered, and a customization P2 mapped from G1 (default) to G2. P1 gets fulfillment id "F1"; P2 gets the parent tag (G1, "yes") and a child tag listing G2 |
| Scenarios.UnknownMembershipsChangeNothing | seller/app/modules/authentication/v1/services/organization.service.js:423-429 | Membership rows naming no product are skipped: the back-fill succeeds and changes nothing |

## Left out

- S3 URL signing (`get_s3_url`, lines 30-35) is the uninterpreted parameter `sign`. The concurrent fan-out of image requests is an order-preserving map.
- Database queries (`Organization.find`, `Product.find`, `CustomMenu.find`, `CustomizationGroupMapping.find` and others) are inputs. They are assumed already filtered by organization and published flag, and sorted as the queries sort them. The mapping query filters only by customization id; the model filters the one mapping table per product.
- The clock read and the "yesterday" ISO timestamp (lines 60-61, 69) are the parameter `timestamp`.
- CRUD and retrieval methods (`create`, `signup`, `list`, `get`, `ondcGet`, `setStoreDetails`, `update`, `getStoreDetails`, lines 540-864) are persistence plumbing.
- HTTP sends in `notifyOrgUpdate`, `notifyStoreUpdate` and `notifyStoreUpdateToCore` are network I/O. Only the request body of `notifyStoreUpdateToCore` and its location label are modelled. `notifyOrgUpdate` and the `updateType` branching of `notifyStoreUpdate` (lines 929-941) are not modelled.
- `seller/app/modules/order/models/order.model.js` is a schema declaration with no logic. `seller/app/config/environments/base/env.cors.js` is static configuration. Neither is part of this model.
- `provider.offers` is always the empty object. It is not represented.
- Numbers are integers. `MRP` and `UOMValue` are modelled as integers rendered in decimal, because fractional `toString` output is not modelled.
- Object key order follows insertion order. JavaScript lists canonical integer-like keys first, in ascending order. The product, menu and group keys are 24-hex-digit object ids, which are never integer-like. Fulfillment ids have no fixed format.
- Store.FulfillmentBlockOfDistinctIds: assumes fulfillment ids are not integer-like. With ids such as "2" and "1" JavaScript lists the entries in ascending numeric order, not in store order, and the stated order does not hold.
- ProviderCaches.FulfillmentCacheOfDistinctIds: proved only for distinct fulfillment ids that are not integer-like. With a repeated id, the later option's type replaces the earlier one's in place. With integer-like ids, `Object.values` at line 524 would list those ids first, in ascending order.
- Object ids are strings, and `toString` on them is the identity.
- Optional strings (`productSubcategory1`, `customizationGroupId`) use "" for absent, which is the falsy case the code tests. A mapping row's `child` is a string, so an `undefined` child (pushed by the code as it is) is not represented.
- Other `TypeError`s from absent or `null` nested fields (no `address`, `radius` or `supportDetails`; no `contact` on a fulfillment option) are not modelled. Those fields are always present in the model's records. A `null` `storeDetails` or `storeTiming` throws exactly as a missing one does, and is represented by the same `None`.
- Provider.IsMenuTagged: guards the `tags[0].list[0]` read that the source performs unguarded. Every category the model builds has that tag (Categories.CategoriesWellTagged), so the guard never changes the outcome.
- ProviderCaches.ItemCacheOfDistinctProducts: proved only for distinct product ids, which are database ids. With a repeated id, the later entry replaces the earlier one's value in place.
