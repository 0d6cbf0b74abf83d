/** The store-level blocks of a provider (descriptor, location, fulfillments
    and the trailing tags) and the location label of the store-update
    notification sent to the core service. */
module Store {
  import opened Wrappers
  import opened OrderedMap
  import opened Records
  import opened Timing

  /** `details`: the descriptor with the resolved logo and the licence. */
  datatype ProviderDetails = ProviderDetails(
    name: string, symbol: string, shortDesc: string, longDesc: string, images: seq<string>, fssai: string)

  /** `build_provider_detail_block`: the organization's name as name and as
      both descriptions, the logo resolved once and used as symbol and as
      the only image. */
  function BuildProviderDetails(org: StoredOrganization, sign: string -> string): (d: ProviderDetails)
    ensures d.name == org.name && d.shortDesc == org.name && d.longDesc == org.name
    ensures d.symbol == sign(org.storeDetails.value.logo) && d.images == [d.symbol]
    ensures d.fssai == org.fssai
  {
    var logo := sign(org.storeDetails.value.logo);
    ProviderDetails(org.name, logo, org.name, org.name, [logo], org.fssai)
  }

  /** The `time.label` of the location block: only "disabled" disables, so a
      "closed" store reads as enabled here. */
  function LocationLabel(status: string): (lbl: string)
    ensures lbl == "disable" <==> status == "disabled"
    ensures lbl != "disable" ==> lbl == "enable"
  {
    if status != "disabled" then "enable" else "disable"
  }

  datatype Schedule = Schedule(holidays: seq<string>, frequency: string, times: seq<string>)

  datatype LocationTime = LocationTime(
    timeLabel: string, timestamp: string, days: string, schedule: Schedule, rangeStart: string, rangeEnd: string)

  /** The location address; `street` is filled from `building`. */
  datatype LocationAddress = LocationAddress(
    locality: string, street: string, city: string, areaCode: string, state: string)

  datatype LocationBlock = LocationBlock(
    id: string, gps: string, time: LocationTime, address: LocationAddress, phone: string)

  /** `build_location_detail_block`; `timestamp` is the rendered instant one
      day before the clock read the source makes. */
  function BuildLocationBlock(org: StoredOrganization, loc: GeoLocation, timing: StoreTiming, timestamp: string): (b: LocationBlock)
    ensures b.id == SyntheticLocationId
    ensures b.gps == loc.lat + "," + loc.long
    ensures b.time.timeLabel == LocationLabel(timing.status)
    ensures b.time.timeLabel == "disable" <==> timing.status == "disabled"
    ensures b.time.timestamp == timestamp
    ensures b.time.days == "1,2,3,4,5,6,7"
    ensures b.time.schedule == Schedule(timing.holidays, "PT4H", ["0001", "2359"])
    ensures b.time.rangeStart == "0001" && b.time.rangeEnd == "2359"
    ensures b.address.street == org.storeDetails.value.address.building
    ensures b.address.locality == org.storeDetails.value.address.locality && b.address.city == org.storeDetails.value.address.city
    ensures b.address.areaCode == org.storeDetails.value.address.areaCode && b.address.state == org.storeDetails.value.address.state
    ensures b.phone == org.storeDetails.value.supportMobile
  {
    var a := org.storeDetails.value.address;
    LocationBlock(
      SyntheticLocationId,
      loc.lat + "," + loc.long,
      LocationTime(
        LocationLabel(timing.status),
        timestamp,
        "1,2,3,4,5,6,7",
        Schedule(timing.holidays, "PT4H", ["0001", "2359"]),
        "0001",
        "2359"),
      LocationAddress(a.locality, a.building, a.city, a.areaCode, a.state),
      org.storeDetails.value.supportMobile)
  }

  datatype FulfillmentEntry = FulfillmentEntry(id: string, kind: string, phone: string, email: string)

  function FulfillmentEntries(options: seq<FulfillmentOption>): (es: OMap<FulfillmentEntry>)
    ensures |es| == |options|
    ensures forall i :: 0 <= i < |options| ==> es[i].0 == options[i].id && es[i].1.id == options[i].id
    ensures forall i :: 0 <= i < |options| ==>
      es[i].1.kind == options[i].kind && es[i].1.phone == options[i].phone && es[i].1.email == options[i].email
  {
    seq(|options|, i requires 0 <= i < |options| =>
      (options[i].id, FulfillmentEntry(options[i].id, options[i].kind, options[i].phone, options[i].email)))
  }

  /** `build_fulfillment_block`: every option's id is a key and every key is
      an option's id; an option written later under a repeated id replaces
      the earlier one's value in place. */
  function BuildFulfillmentBlock(options: seq<FulfillmentOption>): (r: OMap<FulfillmentEntry>)
    ensures Valid(r)
    ensures forall i :: 0 <= i < |options| ==> options[i].id in Keys(r)
    ensures forall k :: k in Keys(r) ==> exists i :: 0 <= i < |options| && options[i].id == k
  {
    var es := FulfillmentEntries(options);
    MergeEntriesKeys(es);
    Merge([], es)
  }

  /** With distinct option ids the block lists the options in their order. */
  lemma {:induction false} FulfillmentBlockOfDistinctIds(options: seq<FulfillmentOption>)
    requires forall i, j :: 0 <= i < j < |options| ==> options[i].id != options[j].id
    ensures BuildFulfillmentBlock(options) == FulfillmentEntries(options)
  {
    FromDistinctEntries(FulfillmentEntries(options));
  }

  /** The serviceability tag: the store location's own id, the fixed
      category "F&B" and type "10", and the service radius. */
  function ServiceabilityTag(loc: GeoLocation, radius: Radius): (t: Tag)
    ensures t.code == "serviceability" && |t.list| == 5
    ensures t.list[0] == TagEntry("location", loc.id)
    ensures t.list[1] == TagEntry("category", "F&B") && t.list[2] == TagEntry("type", "10")
    ensures t.list[3] == TagEntry("val", radius.value) && t.list[4] == TagEntry("unit", radius.unit)
  {
    Tag("serviceability", [
      TagEntry("location", loc.id),
      TagEntry("category", "F&B"),
      TagEntry("type", "10"),
      TagEntry("val", radius.value),
      TagEntry("unit", radius.unit)])
  }

  /** `build_tags_block`: one timing tag per enabled window, then the
      serviceability tag last. */
  function BuildTagsBlock(timing: StoreTiming, loc: GeoLocation, radius: Radius): (tags: seq<Tag>)
    ensures |tags| == WindowCount(timing.enabled) + 1
    ensures forall k :: 0 <= k < |tags| - 1 ==> IsTimingTag(tags[k])
    ensures tags[..|tags| - 1] == BuildTimingTags(timing.enabled)
    ensures tags[|tags| - 1].code == "serviceability"
    ensures tags[|tags| - 1].list == ServiceabilityTag(loc, radius).list
  {
    BuildTimingTags(timing.enabled) + [ServiceabilityTag(loc, radius)]
  }

  /** The location label of `notifyStoreUpdateToCore`: "disable" for a
      disabled store, "close" for a closed one, "enable" otherwise, a store
      without timing included. */
  function CoreLabel(timing: Option<StoreTiming>): (lbl: string)
    ensures lbl == "disable" <==> timing.Some? && timing.value.status == "disabled"
    ensures lbl == "close" <==> timing.Some? && timing.value.status == "closed"
    ensures lbl != "disable" && lbl != "close" ==> lbl == "enable"
  {
    if timing.Some? && timing.value.status == "disabled" then "disable"
    else if timing.Some? && timing.value.status == "closed" then "close"
    else "enable"
  }

  datatype CoreLocation = CoreLocation(id: string, status: string, range: Option<StoreTiming>)

  datatype StoreUpdateRequest = StoreUpdateRequest(sellerId: string, providerId: string, location: CoreLocation)

  /** The request body of `notifyStoreUpdateToCore`: a closed store also
      carries its timing as the location's range. Reading the timing of an
      organization without store details throws. */
  function BuildStoreUpdateRequest(org: Organization): (r: Result<StoreUpdateRequest, ProjectionError>)
    ensures org.storeDetails.None? <==> r == Failure(MissingStoreDetails(org.id))
    ensures r.Success? ==> r.value.providerId == org.id && r.value.location.id == SyntheticLocationId
    ensures r.Success? ==> r.value.location.status == CoreLabel(org.storeDetails.value.storeTiming)
    ensures r.Success? ==> (r.value.location.range.Some? <==> r.value.location.status == "close")
    ensures r.Success? && r.value.location.range.Some? ==>
      r.value.location.range == org.storeDetails.value.storeTiming
  {
    if org.storeDetails.None? then Failure(MissingStoreDetails(org.id))
    else
      var timing := org.storeDetails.value.storeTiming;
      var lbl := CoreLabel(timing);
      Success(StoreUpdateRequest("ondc.wallic.io", org.id,
        CoreLocation(SyntheticLocationId, lbl, if lbl == "close" then timing else None)))
  }

  /** The two labels agree on every status but "closed", where the catalog
      says "enable" and the notification says "close". */
  lemma LabelsAgreeExceptClosed(t: StoreTiming)
    ensures LocationLabel(t.status) == CoreLabel(Some(t)) <==> t.status != "closed"
    ensures t.status == "closed" ==> LocationLabel(t.status) == "enable" && CoreLabel(Some(t)) == "close"
  {
  }
}
