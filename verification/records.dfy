/** The records the projection reads (organizations with their store
    configuration, products, customization groups and mappings, custom menus,
    their timings and memberships) and the tag blocks it writes. Each input
    record keeps the fields the projection reads; a JavaScript optional
    string (`productSubcategory1`, `customizationGroupId`) is "" when absent,
    which is also the value JavaScript treats as false. */
module Records {
  import opened Wrappers

  /** `{code, value}` inside a tag's list. */
  datatype TagEntry = TagEntry(code: string, value: string)

  /** `{code, list}`: the structured metadata attached throughout the output. */
  datatype Tag = Tag(code: string, list: seq<TagEntry>)

  /** `daysRange`: the first and last day numbers of the range. */
  datatype DayRange = DayRange(from: int, to: int)

  /** One `{from, to}` window, each an `HH:MM` string. */
  datatype Window = Window(from: string, to: string)

  /** One timing entry: a day range and its windows. */
  datatype TimingEntry = TimingEntry(daysRange: DayRange, timings: seq<Window>)

  datatype GeoLocation = GeoLocation(id: string, lat: string, long: string)

  /** A document field that may be missing, stored as `null`, or set:
      JavaScript tells the first two apart when it compares with
      `=== undefined`, and reading a property of either throws. */
  datatype Nullable<T> = Undefined | Null | Defined(value: T)

  datatype Address = Address(locality: string, building: string, city: string, areaCode: string, state: string)

  /** `storeTiming`: the status ("enabled", "disabled", "closed"), the
      holidays and the enabled windows. */
  datatype StoreTiming = StoreTiming(status: string, holidays: seq<string>, enabled: seq<TimingEntry>)

  datatype Radius = Radius(value: string, unit: string)

  /** One fulfillment option of the store. */
  datatype FulfillmentOption = FulfillmentOption(id: string, kind: string, phone: string, email: string)

  /** `storeDetails`: `location` may be missing or `null`, `storeTiming`
      missing. */
  datatype StoreDetails = StoreDetails(
    location: Nullable<GeoLocation>,
    address: Address,
    storeTiming: Option<StoreTiming>,
    radius: Radius,
    fulfillments: seq<FulfillmentOption>,
    logo: string,
    supportMobile: string)

  datatype Organization = Organization(
    id: string,
    name: string,
    fssai: string,
    contactEmail: string,
    contactMobile: string,
    isEnabled: bool,
    storeDetails: Option<StoreDetails>)

  /** An organization whose store details are set, as every store-level
      block reads them; one that signed up without them has none. */
  type StoredOrganization = o: Organization | o.storeDetails.Some?
    witness Organization("", "", "", "", "", false,
      Some(StoreDetails(Undefined, Address("", "", "", "", ""), None, Radius("", ""), [], "", "")))

  /** A published product; `kind` is the `type` discriminator ("item",
      "customization", ...). */
  datatype Product = Product(
    id: string,
    name: string,
    kind: string,
    description: string,
    longDescription: string,
    uom: string,
    uomValue: int,
    quantity: int,
    maxAllowedQty: int,
    mrp: int,
    isReturnable: bool,
    isCancellable: bool,
    returnWindow: string,
    availableOnCod: bool,
    fulfillmentOption: string,
    customizationGroupId: string,
    subcategory: string,
    images: seq<string>,
    vegNonVeg: string)

  /** `seq` is the display sequence, here `rank`. */
  datatype CustomizationGroup = CustomizationGroup(
    id: string, name: string, minQuantity: int, maxQuantity: int, inputType: string, rank: int)

  /** A row linking a customization product to its parent group, and
      possibly a child group ("" when there is none). */
  datatype GroupMapping = GroupMapping(customization: string, parent: string, isDefault: bool, child: string)

  datatype CustomMenu = CustomMenu(
    id: string, name: string, shortDescription: string, longDescription: string, images: seq<string>, rank: int)

  /** The timing windows attached to one custom menu. */
  datatype MenuTiming = MenuTiming(customMenu: string, timings: seq<TimingEntry>)

  /** A product's membership of a custom menu, at a display sequence (`seq`, here `rank`). */
  datatype MenuMembership = MenuMembership(product: string, customMenu: string, rank: int)

  /** Everything read for one organization: the organization itself and the
      query results, each already restricted to the organization (products
      also to the published ones, sorted by creation time). The mapping rows
      are the whole table: the source selects them per product. */
  datatype OrgRecord = OrgRecord(
    org: Organization,
    menus: seq<CustomMenu>,
    menuTimings: seq<MenuTiming>,
    groups: seq<CustomizationGroup>,
    products: seq<Product>,
    mappings: seq<GroupMapping>,
    memberships: seq<MenuMembership>)

  /** The errors that abort the whole projection. */
  datatype ProjectionError =
    | MissingStoreDetails(orgId: string)    // `store.location` on an organization without store details
    | NullLocation(orgId: string)           // `store.location.lat` on a store whose location is `null`
    | MissingStoreTiming(orgId: string)     // `store.storeTiming.status` on a store without a timing
    | CategoryIdsMissing(productId: string) // `category_ids.push` on an entry that has no `category_ids`

  /** The `type` tag every category and item opens with. */
  function TypeTag(kind: string): Tag {
    Tag("type", [TagEntry("type", kind)])
  }

  /** Resolving every stored path through the asset resolver `sign`, all at
      once and in order (`Promise.all` over the paths). */
  function SignAll(paths: seq<string>, sign: string -> string): (urls: seq<string>)
    ensures |urls| == |paths|
    ensures forall i :: 0 <= i < |paths| ==> urls[i] == sign(paths[i])
  {
    seq(|paths|, i requires 0 <= i < |paths| => sign(paths[i]))
  }

  /** The location id written for every organization in place of its own. */
  const SyntheticLocationId: string := "65e887ed749479b3aea2e7c2"
}
