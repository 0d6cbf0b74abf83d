/** `build_item_block`: one entry per published product, shaped by the
    product's type, then the custom-menu memberships written into the
    `category_ids` of the entries they name. */
module Items {
  import opened Wrappers
  import opened OrderedMap
  import opened Records
  import opened Text

  datatype Measure = Measure(unit: string, value: string)

  datatype ItemQuantity = ItemQuantity(unitized: Measure, available: string, maximum: string)

  datatype Price = Price(currency: string, value: string, maximumValue: string)

  /** The fields only an `item` product's entry has: the rest of its
      descriptor, its category ids, its fulfillment and the `@ondc/org` extension
      commerce fields. `symbol` is absent when the product has no image. */
  datatype Listing = Listing(
    symbol: Option<string>,
    shortDesc: string,
    longDesc: string,
    images: seq<string>,
    categoryIds: seq<string>,
    fulfillmentId: string,
    recommended: bool,
    returnable: string,
    cancellable: string,
    returnWindow: string,
    sellerPickupReturn: bool,
    timeToShip: string,
    availableOnCod: string,
    consumerCare: string)

  /** One entry of the items map; `name` is `descriptor.name`. */
  datatype Item = Item(
    id: string,
    name: string,
    quantity: ItemQuantity,
    price: Price,
    categoryId: string,
    locationId: string,
    related: bool,
    tags: seq<Tag>,
    listing: Option<Listing>)

  /** Index of the first option of the given type, `|options|` if none. */
  function FirstMatch(options: seq<FulfillmentOption>, kind: string): (k: nat)
    ensures k <= |options|
    ensures forall j :: 0 <= j < k ==> options[j].kind != kind
    ensures k < |options| ==> options[k].kind == kind
  {
    if |options| == 0 then 0
    else if options[0].kind == kind then 0
    else 1 + FirstMatch(options[1..], kind)
  }

  /** The fulfillment of an item: the first store option whose type is the
      product's fulfillment option wins; none matching gives "". */
  function FulfillmentIdFor(options: seq<FulfillmentOption>, kind: string): (id: string)
    ensures (forall j :: 0 <= j < |options| ==> options[j].kind != kind) ==> id == ""
    ensures forall k :: 0 <= k < |options| && options[k].kind == kind
                        && (forall j :: 0 <= j < k ==> options[j].kind != kind)
                        ==> id == options[k].id
  {
    var k := FirstMatch(options, kind);
    if k < |options| then options[k].id else ""
  }

  /** The `veg` value: "yes" for the two accepted spellings, "no" otherwise. */
  function VegFlag(marker: string): (f: string)
    ensures f == "yes" <==> marker == "VEG" || marker == "veg"
    ensures f != "yes" ==> f == "no"
  {
    if marker == "VEG" || marker == "veg" then "yes" else "no"
  }

  /** The two tags every entry opens with. */
  function BaseTags(p: Product): seq<Tag> {
    [TypeTag(p.kind), Tag("veg_nonveg", [TagEntry("veg", VegFlag(p.vegNonVeg))])]
  }

  /** The mapping rows of one customization product, in table order. */
  function MappingsFor(mappings: seq<GroupMapping>, productId: string): (rows: seq<GroupMapping>)
    ensures |rows| <= |mappings|
    ensures forall i :: 0 <= i < |rows| ==> rows[i].customization == productId && rows[i] in mappings
    ensures forall j :: 0 <= j < |mappings| && mappings[j].customization == productId ==> mappings[j] in rows
  {
    if |mappings| == 0 then []
    else (if mappings[0].customization == productId then [mappings[0]] else [])
         + MappingsFor(mappings[1..], productId)
  }

  /** Selecting rows commutes with splitting the table: the rows of a
      product come out in table order, with repeats kept. */
  lemma {:induction false} MappingsForConcat(a: seq<GroupMapping>, b: seq<GroupMapping>, productId: string)
    ensures MappingsFor(a + b, productId) == MappingsFor(a, productId) + MappingsFor(b, productId)
  {
    if |a| == 0 {
      assert a + b == b;
    } else {
      assert (a + b)[1..] == a[1..] + b;
      MappingsForConcat(a[1..], b, productId);
    }
  }

  /** Number of rows that name a child. */
  function CountWithChild(rows: seq<GroupMapping>): nat {
    if |rows| == 0 then 0 else (if rows[0].child != "" then 1 else 0) + CountWithChild(rows[1..])
  }

  /** The non-empty child ids of the rows, in row order. */
  function ChildIds(rows: seq<GroupMapping>): (ids: seq<string>)
    ensures |ids| <= |rows|
    ensures forall i :: 0 <= i < |ids| ==> ids[i] != ""
    ensures forall j :: 0 <= j < |rows| && rows[j].child != "" ==> rows[j].child in ids
    ensures |ids| == 0 <==> forall j :: 0 <= j < |rows| ==> rows[j].child == ""
    ensures |ids| == CountWithChild(rows)
  {
    if |rows| == 0 then []
    else
      var rest := ChildIds(rows[1..]);
      assert forall j :: 1 <= j < |rows| ==> rows[j] == rows[1..][j - 1];
      (if rows[0].child != "" then [rows[0].child] else []) + rest
  }

  function ParentTag(row: GroupMapping): Tag {
    Tag("parent", [TagEntry("id", row.parent), TagEntry("default", if row.isDefault then "yes" else "no")])
  }

  function ChildTag(ids: seq<string>): Tag {
    Tag("child", seq(|ids|, i requires 0 <= i < |ids| => TagEntry("id", ids[i])))
  }

  /** The parent/child tags of a customization product from its mapping
      rows: none without rows; otherwise the parent tag of the first row,
      then the child tag when some row has a child. */
  function RelationTags(rows: seq<GroupMapping>): (tags: seq<Tag>)
    ensures |rows| == 0 ==> tags == []
    ensures |rows| > 0 ==> 1 <= |tags| <= 2 && tags[0].code == "parent"
    ensures |rows| > 0 ==> tags[0].list == [TagEntry("id", rows[0].parent),
                                            TagEntry("default", if rows[0].isDefault then "yes" else "no")]
    ensures |rows| > 0 ==> (|tags| == 2 <==> exists j :: 0 <= j < |rows| && rows[j].child != "")
    ensures |tags| == 2 ==> tags[1].code == "child" && |tags[1].list| == CountWithChild(rows)
    ensures |tags| == 2 ==> forall i :: 0 <= i < |tags[1].list| ==>
      tags[1].list[i] == TagEntry("id", ChildIds(rows)[i]) && tags[1].list[i].value != ""
  {
    if |rows| == 0 then []
    else [ParentTag(rows[0])] + (if |ChildIds(rows)| > 0 then [ChildTag(ChildIds(rows))] else [])
  }

  function CustomGroupTag(groupId: string): Tag {
    Tag("custom_group", [TagEntry("id", groupId)])
  }

  /** The item-only part of an entry: the first signed image as symbol
      (absent without images), both descriptions, every image signed in
      order, no category ids yet, the first matching fulfillment, and the
      commerce fields with the flags rendered as "true"/"false". */
  function ListingOf(org: StoredOrganization, p: Product, sign: string -> string): (l: Listing)
    ensures l.symbol == (if |p.images| > 0 then Some(sign(p.images[0])) else None)
    ensures l.shortDesc == p.description && l.longDesc == p.longDescription
    ensures l.images == SignAll(p.images, sign) && l.categoryIds == []
    ensures l.fulfillmentId == FulfillmentIdFor(org.storeDetails.value.fulfillments, p.fulfillmentOption)
    ensures !l.recommended && !l.sellerPickupReturn && l.timeToShip == "PT45M"
    ensures l.returnable == BoolText(p.isReturnable) && l.cancellable == BoolText(p.isCancellable)
    ensures l.returnWindow == p.returnWindow && l.availableOnCod == BoolText(p.availableOnCod)
    ensures l.consumerCare == org.name + "," + org.contactEmail + "," + org.contactMobile
  {
    var urls := SignAll(p.images, sign);
    Listing(
      if |urls| > 0 then Some(urls[0]) else None,
      p.description,
      p.longDescription,
      urls,
      [],
      FulfillmentIdFor(org.storeDetails.value.fulfillments, p.fulfillmentOption),
      false,
      BoolText(p.isReturnable),
      BoolText(p.isCancellable),
      p.returnWindow,
      false,
      "PT45M",
      BoolText(p.availableOnCod),
      org.name + "," + org.contactEmail + "," + org.contactMobile)
  }

  /** The entry of one product. */
  function BuildItem(org: StoredOrganization, p: Product, mappings: seq<GroupMapping>, sign: string -> string): (it: Item)
    ensures it.id == p.id && it.name == p.name && it.locationId == SyntheticLocationId
    ensures it.related <==> p.kind != "item"
    ensures it.listing.Some? <==> p.kind == "item"
    ensures |it.tags| >= 2 && it.tags[0] == TypeTag(p.kind) && it.tags[1].code == "veg_nonveg"
    ensures |it.tags[1].list| == 1 && it.tags[1].list[0].code == "veg"
    ensures it.tags[1].list[0].value == "yes" <==> p.vegNonVeg == "VEG" || p.vegNonVeg == "veg"
    ensures it.tags[1].list[0].value != "yes" ==> it.tags[1].list[0].value == "no"
    ensures it.price.currency == "INR" && it.price.value == IntToDecimal(p.mrp) && it.price.maximumValue == IntToDecimal(p.mrp)
    ensures it.quantity.unitized == Measure(p.uom, IntToDecimal(p.uomValue))
    ensures it.quantity.available == IntToDecimal(p.quantity) && it.quantity.maximum == IntToDecimal(p.maxAllowedQty)
    ensures p.kind == "item" ==>
      && it.listing == Some(ListingOf(org, p, sign))
      && it.categoryId == (if p.subcategory != "" then p.subcategory else "F&B")
      && it.tags[2..] == (if p.customizationGroupId != "" then [CustomGroupTag(p.customizationGroupId)] else [])
    ensures p.kind == "customization" ==>
      it.categoryId == "F&B" && it.tags[2..] == RelationTags(MappingsFor(mappings, p.id))
    ensures p.kind != "item" && p.kind != "customization" ==> it.categoryId == "F&B" && |it.tags| == 2
  {
    var base := Item(
      p.id,
      p.name,
      ItemQuantity(Measure(p.uom, IntToDecimal(p.uomValue)), IntToDecimal(p.quantity), IntToDecimal(p.maxAllowedQty)),
      Price("INR", IntToDecimal(p.mrp), IntToDecimal(p.mrp)),
      "F&B",
      SyntheticLocationId,
      p.kind != "item",
      BaseTags(p),
      None);
    if p.kind == "item" then
      base.(
        categoryId := (if p.subcategory != "" then p.subcategory else base.categoryId),
        listing := Some(ListingOf(org, p, sign)),
        tags := base.tags + (if p.customizationGroupId != "" then [CustomGroupTag(p.customizationGroupId)] else []))
    else if p.kind == "customization" then
      base.(tags := base.tags + RelationTags(MappingsFor(mappings, p.id)))
    else
      base
  }

  /** The first mapping row of the product in table order is the head of
      its rows, so the parent tag comes from it. */
  lemma {:induction false} MappingsForHead(mappings: seq<GroupMapping>, productId: string, j: nat)
    requires j < |mappings| && mappings[j].customization == productId
    requires forall i :: 0 <= i < j ==> mappings[i].customization != productId
    ensures |MappingsFor(mappings, productId)| > 0
    ensures MappingsFor(mappings, productId)[0] == mappings[j]
  {
    if j > 0 {
      assert mappings[1..][j - 1] == mappings[j];
      MappingsForHead(mappings[1..], productId, j - 1);
    }
  }

  /** Child ids keep row order across any split of the rows. */
  lemma {:induction false} ChildIdsConcat(a: seq<GroupMapping>, b: seq<GroupMapping>)
    ensures ChildIds(a + b) == ChildIds(a) + ChildIds(b)
  {
    if |a| == 0 {
      assert a + b == b;
    } else {
      assert (a + b)[1..] == a[1..] + b;
      ChildIdsConcat(a[1..], b);
    }
  }

  /** `${customMenu}:${seq}`. */
  function MembershipId(row: MenuMembership): (id: string)
    ensures |id| > |row.customMenu| && id[..|row.customMenu|] == row.customMenu && id[|row.customMenu|] == ':'
    ensures id[|row.customMenu| + 1..] == IntToDecimal(row.rank)
  {
    row.customMenu + ":" + IntToDecimal(row.rank)
  }

  /** A prefix without a colon followed by a colon puts the first colon
      right after the prefix. */
  lemma FirstColonAfter(x: string, s: string)
    requires ':' !in x && |s| > |x| && s[..|x|] == x && s[|x|] == ':'
    ensures FirstIndex(s, ':') == |x|
  {
    var k := FirstIndex(s, ':');
    assert forall i :: 0 <= i < |x| ==> s[i] == x[i] && s[i] != ':';
  }

  /** Menu ids are object ids and hold no colon, so a membership id names
      its menu and its rank: distinct memberships give distinct ids. */
  lemma {:induction false} MembershipIdInjective(a: MenuMembership, b: MenuMembership)
    requires ':' !in a.customMenu && ':' !in b.customMenu
    requires MembershipId(a) == MembershipId(b)
    ensures a.customMenu == b.customMenu && a.rank == b.rank
  {
    var s := MembershipId(a);
    FirstColonAfter(a.customMenu, s);
    FirstColonAfter(b.customMenu, s);
    IntToDecimalInjective(a.rank, b.rank);
  }

  /** The category ids the membership rows give one product, in row order. */
  function MembershipIds(rows: seq<MenuMembership>, productId: string): seq<string> {
    if |rows| == 0 then []
    else (if rows[0].product == productId then [MembershipId(rows[0])] else [])
         + MembershipIds(rows[1..], productId)
  }

  /** Appends to `category_ids`; an entry without a listing is left alone. */
  function AddCategoryIds(it: Item, ids: seq<string>): Item {
    match it.listing
    case Some(l) => it.(listing := Some(l.(categoryIds := l.categoryIds + ids)))
    case None => it
  }

  /** A membership row can be applied: every entry under its product has
      `category_ids` (vacuous when the product is not a key). */
  predicate RowApplies(items: OMap<Item>, row: MenuMembership) {
    forall i :: 0 <= i < |items| && items[i].0 == row.product ==> items[i].1.listing.Some?
  }

  /** The items map after one applicable membership row. */
  function FillFirst(items: OMap<Item>, row: MenuMembership): OMap<Item>
    requires Valid(items)
  {
    if row.product in Keys(items)
    then Put(items, row.product, AddCategoryIds(Lookup(items, row.product), [MembershipId(row)]))
    else items
  }

  lemma {:induction false} AddNothing(it: Item)
    ensures AddCategoryIds(it, []) == it
  {
    if it.listing.Some? {
      assert it.listing.value.categoryIds + [] == it.listing.value.categoryIds;
    }
  }

  lemma {:induction false} FillFirstEntries(items: OMap<Item>, row: MenuMembership)
    requires Valid(items) && RowApplies(items, row)
    ensures |FillFirst(items, row)| == |items| && Valid(FillFirst(items, row))
    ensures Keys(FillFirst(items, row)) == Keys(items)
    ensures forall i :: 0 <= i < |items| ==>
      FillFirst(items, row)[i] == (items[i].0, AddCategoryIds(items[i].1, MembershipIds([row], items[i].0)))
  {
    var k, f := row.product, FillFirst(items, row);
    if k in Keys(items) {
      PutPresent(items, k, AddCategoryIds(Lookup(items, k), [MembershipId(row)]));
    }
    forall i | 0 <= i < |items|
      ensures f[i] == (items[i].0, AddCategoryIds(items[i].1, MembershipIds([row], items[i].0)))
    {
      assert [row][1..] == [];
      if items[i].0 == k {
        assert MembershipIds([row], k) == [MembershipId(row)];
        IndexOfValid(items, i);
      } else {
        assert MembershipIds([row], items[i].0) == [];
        assert f[i] == items[i];
        AddNothing(items[i].1);
      }
    }
    assert Keys(f) == Keys(items);
  }

  /** Filling keeps which entries have `category_ids`. */
  lemma {:induction false} FillFirstApplies(items: OMap<Item>, row: MenuMembership)
    requires Valid(items) && RowApplies(items, row)
    ensures forall r :: RowApplies(FillFirst(items, row), r) <==> RowApplies(items, r)
  {
    FillFirstEntries(items, row);
  }

  /** The loop over `custom_menu_products`: a row whose product is not a key
      is skipped; one whose product's entry has `category_ids` appends
      `menu:seq` to them; one whose product's entry has none (a product that
      is not an `item`) throws, and the projection with it. On success every
      entry keeps its key, place and every other field, and its category ids
      gain the ids of the rows naming it, in row order. */
  function BackFill(items: OMap<Item>, rows: seq<MenuMembership>): (r: Result<OMap<Item>, ProjectionError>)
    requires Valid(items)
    ensures r.Success? <==> forall j :: 0 <= j < |rows| ==> RowApplies(items, rows[j])
    ensures r.Success? ==> |r.value| == |items| && Valid(r.value)
    ensures r.Success? ==> forall i :: 0 <= i < |items| ==>
      r.value[i] == (items[i].0, AddCategoryIds(items[i].1, MembershipIds(rows, items[i].0)))
    ensures r.Failure? ==> r.error.CategoryIdsMissing? && r.error.productId in Keys(items)
                           && Lookup(items, r.error.productId).listing.None?
    decreases |rows|
  {
    if |rows| == 0 then
      assert forall i :: 0 <= i < |items| ==> AddCategoryIds(items[i].1, []) == items[i].1 by {
        forall i | 0 <= i < |items| ensures AddCategoryIds(items[i].1, []) == items[i].1 {
          AddNothing(items[i].1);
        }
      }
      Success(items)
    else if !RowApplies(items, rows[0]) then
      var i :| 0 <= i < |items| && items[i].0 == rows[0].product && items[i].1.listing.None?;
      IndexOfValid(items, i);
      Failure(CategoryIdsMissing(rows[0].product))
    else
      FillFirstEntries(items, rows[0]);
      var r := BackFill(FillFirst(items, rows[0]), rows[1..]);
      FillStep(items, rows, r);
      r
  }

  /** The recursive case of `BackFill`: what the rest of the rows do to the
      items after the first row is what all the rows do to the items. */
  lemma {:induction false} FillStep(items: OMap<Item>, rows: seq<MenuMembership>, r: Result<OMap<Item>, ProjectionError>)
    requires Valid(items) && |rows| > 0 && RowApplies(items, rows[0])
    requires Valid(FillFirst(items, rows[0]))
    requires r.Success? <==> forall j :: 0 <= j < |rows| - 1 ==> RowApplies(FillFirst(items, rows[0]), rows[1..][j])
    requires r.Success? ==> |r.value| == |FillFirst(items, rows[0])| && Valid(r.value)
    requires r.Success? ==> forall i :: 0 <= i < |FillFirst(items, rows[0])| ==>
      r.value[i] == (FillFirst(items, rows[0])[i].0,
                     AddCategoryIds(FillFirst(items, rows[0])[i].1, MembershipIds(rows[1..], FillFirst(items, rows[0])[i].0)))
    requires r.Failure? ==> r.error.CategoryIdsMissing? && r.error.productId in Keys(FillFirst(items, rows[0]))
                            && Lookup(FillFirst(items, rows[0]), r.error.productId).listing.None?
    ensures r.Success? <==> forall j :: 0 <= j < |rows| ==> RowApplies(items, rows[j])
    ensures r.Success? ==> |r.value| == |items| && Valid(r.value)
    ensures r.Success? ==> forall i :: 0 <= i < |items| ==>
      r.value[i] == (items[i].0, AddCategoryIds(items[i].1, MembershipIds(rows, items[i].0)))
    ensures r.Failure? ==> r.error.CategoryIdsMissing? && r.error.productId in Keys(items)
                           && Lookup(items, r.error.productId).listing.None?
  {
    FillFirstEntries(items, rows[0]);
    FillFirstApplies(items, rows[0]);
    assert forall j :: 1 <= j < |rows| ==> rows[j] == rows[1..][j - 1];
    if r.Success? {
      FillSuccessStep(items, rows, r.value);
    } else {
      FillFailureStep(items, rows[0], r.error.productId);
    }
  }

  lemma {:induction false} FillSuccessStep(items: OMap<Item>, rows: seq<MenuMembership>, v: OMap<Item>)
    requires Valid(items) && |rows| > 0 && RowApplies(items, rows[0])
    requires |v| == |items|
    requires forall i :: 0 <= i < |items| ==>
      v[i] == (FillFirst(items, rows[0])[i].0,
               AddCategoryIds(FillFirst(items, rows[0])[i].1, MembershipIds(rows[1..], items[i].0)))
    ensures forall i :: 0 <= i < |items| ==>
      v[i] == (items[i].0, AddCategoryIds(items[i].1, MembershipIds(rows, items[i].0)))
  {
    FillFirstEntries(items, rows[0]);
    assert [rows[0]][1..] == [];
    assert forall key ::
      MembershipIds(rows, key) == MembershipIds([rows[0]], key) + MembershipIds(rows[1..], key);
    AddInTurn();
  }

  lemma {:induction false} FillFailureStep(items: OMap<Item>, row: MenuMembership, p: string)
    requires Valid(items) && RowApplies(items, row)
    requires p in Keys(FillFirst(items, row)) && Lookup(FillFirst(items, row), p).listing.None?
    ensures p in Keys(items) && Lookup(items, p).listing.None?
  {
    FillFirstEntries(items, row);
    var i := IndexOf(FillFirst(items, row), p);
    IndexOfValid(items, i);
    IndexOfValid(FillFirst(items, row), i);
  }

  lemma {:induction false} AddTwice(it: Item, a: seq<string>, b: seq<string>)
    ensures AddCategoryIds(AddCategoryIds(it, a), b) == AddCategoryIds(it, a + b)
  {
    if it.listing.Some? {
      assert it.listing.value.categoryIds + a + b == it.listing.value.categoryIds + (a + b);
    }
  }

  lemma {:induction false} AddInTurn()
    ensures forall it: Item, a: seq<string>, b: seq<string> ::
      AddCategoryIds(AddCategoryIds(it, a), b) == AddCategoryIds(it, a + b)
  {
    forall it: Item, a: seq<string>, b: seq<string> {
      AddTwice(it, a, b);
    }
  }

  function ItemEntries(org: StoredOrganization, products: seq<Product>, mappings: seq<GroupMapping>,
                       sign: string -> string): (es: seq<(string, Item)>)
    ensures |es| == |products| && forall i :: 0 <= i < |products| ==> es[i].0 == products[i].id
  {
    seq(|products|, i requires 0 <= i < |products| => (products[i].id, BuildItem(org, products[i], mappings, sign)))
  }

  /** `build_item_block`: the entries written in product order, then the
      memberships back-filled. */
  function BuildItemBlock(org: StoredOrganization, products: seq<Product>, mappings: seq<GroupMapping>,
                          memberships: seq<MenuMembership>, sign: string -> string): (r: Result<OMap<Item>, ProjectionError>)
    ensures r.Success? ==> Valid(r.value)
    ensures r.Success? ==> forall i :: 0 <= i < |products| ==> products[i].id in Keys(r.value)
    ensures r.Success? ==> forall k :: k in Keys(r.value) ==> exists i :: 0 <= i < |products| && products[i].id == k
  {
    var es := ItemEntries(org, products, mappings, sign);
    MergeEntriesKeys(es);
    var r := BackFill(Merge([], es), memberships);
    assert r.Success? ==> Keys(r.value) == Keys(Merge([], es));
    r
  }

  lemma {:induction false} EntriesOfDistinctProductsValid(org: StoredOrganization, products: seq<Product>, mappings: seq<GroupMapping>,
                                       sign: string -> string)
    requires forall i, j :: 0 <= i < j < |products| ==> products[i].id != products[j].id
    ensures Merge([], ItemEntries(org, products, mappings, sign)) == ItemEntries(org, products, mappings, sign)
  {
    var es := ItemEntries(org, products, mappings, sign);
    assert forall i :: 0 <= i < |es| ==> es[i].0 == products[i].id;
    assert Valid(es);
    FromDistinctEntries(es);
  }

  /** Whether a membership row can be applied to the entries of the
      products depends only on the types of the products it names. */
  lemma {:induction false} EntriesApplies(org: StoredOrganization, products: seq<Product>, mappings: seq<GroupMapping>,
                       sign: string -> string, row: MenuMembership)
    ensures RowApplies(ItemEntries(org, products, mappings, sign), row) <==>
      forall i :: 0 <= i < |products| && row.product == products[i].id ==> products[i].kind == "item"
  {
    var es := ItemEntries(org, products, mappings, sign);
    forall i | 0 <= i < |products|
      ensures es[i].0 == products[i].id && (es[i].1.listing.Some? <==> products[i].kind == "item")
    {
      var it := BuildItem(org, products[i], mappings, sign);
      assert es[i] == (products[i].id, it);
    }
  }

  lemma {:induction false} EntriesOfDistinctProducts(org: StoredOrganization, products: seq<Product>, mappings: seq<GroupMapping>,
                                  sign: string -> string)
    requires forall i, j :: 0 <= i < j < |products| ==> products[i].id != products[j].id
    ensures Merge([], ItemEntries(org, products, mappings, sign)) == ItemEntries(org, products, mappings, sign)
    ensures forall row :: RowApplies(ItemEntries(org, products, mappings, sign), row) <==>
      forall i :: 0 <= i < |products| && row.product == products[i].id ==> products[i].kind == "item"
  {
    EntriesOfDistinctProductsValid(org, products, mappings, sign);
    forall row
      ensures RowApplies(ItemEntries(org, products, mappings, sign), row) <==>
        forall i :: 0 <= i < |products| && row.product == products[i].id ==> products[i].kind == "item"
    {
      EntriesApplies(org, products, mappings, sign, row);
    }
  }

  /** With distinct product ids the block fails exactly when a membership
      names a product that is not an `item`. */
  lemma {:induction false} ItemBlockSucceedsIff(org: StoredOrganization, products: seq<Product>, mappings: seq<GroupMapping>,
                             memberships: seq<MenuMembership>, sign: string -> string)
    requires forall i, j :: 0 <= i < j < |products| ==> products[i].id != products[j].id
    ensures BuildItemBlock(org, products, mappings, memberships, sign).Success?
        <==> forall j, i :: 0 <= j < |memberships| && 0 <= i < |products| && memberships[j].product == products[i].id
                            ==> products[i].kind == "item"
  {
    EntriesOfDistinctProducts(org, products, mappings, sign);
  }

  /** With distinct product ids the items map holds one entry per product in
      product order, each with the category ids of the memberships naming it. */
  lemma {:induction false} ItemBlockOfDistinctProducts(org: StoredOrganization, products: seq<Product>, mappings: seq<GroupMapping>,
                                    memberships: seq<MenuMembership>, sign: string -> string)
    requires forall i, j :: 0 <= i < j < |products| ==> products[i].id != products[j].id
    requires BuildItemBlock(org, products, mappings, memberships, sign).Success?
    ensures |BuildItemBlock(org, products, mappings, memberships, sign).value| == |products|
    ensures forall i :: 0 <= i < |products| ==>
      BuildItemBlock(org, products, mappings, memberships, sign).value[i]
      == (products[i].id, AddCategoryIds(BuildItem(org, products[i], mappings, sign), MembershipIds(memberships, products[i].id)))
  {
    EntriesOfDistinctProducts(org, products, mappings, sign);
  }
}
