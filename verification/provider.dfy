/** `getOrgsDetailsForOndc`: one provider per organization with a store
    location, each assembled from the store blocks, the categories and the
    items, plus three caches read off the assembled maps. */
module Provider {
  import opened Wrappers
  import opened OrderedMap
  import opened Records
  import opened Timing
  import opened Categories
  import opened Items
  import opened Store
  import Batch

  datatype Provider = Provider(
    providerId: string,
    onNetworkLogistics: bool,
    ttl: string,
    timeLabel: string,
    details: ProviderDetails,
    locations: OMap<LocationBlock>,
    fulfillments: OMap<FulfillmentEntry>,
    categories: OMap<Category>,
    items: OMap<Item>,
    tags: seq<Tag>,
    itemNameCache: seq<string>,
    categoryNameCache: seq<string>,
    fulfillmentTypeCache: seq<string>)

  /** The names of the entries whose `related` flag is false, in map order. */
  function ItemNameCache(vs: seq<Item>): (names: seq<string>)
    ensures |names| <= |vs|
    ensures forall n :: n in names <==> exists i :: 0 <= i < |vs| && !vs[i].related && vs[i].name == n
  {
    if |vs| == 0 then []
    else
      var rest := ItemNameCache(vs[1..]);
      assert forall i :: 1 <= i < |vs| ==> vs[i] == vs[1..][i - 1];
      (if vs[0].related then [] else [vs[0].name]) + rest
  }

  /** The cache of two runs of entries is the two runs' caches end to end,
      so the names keep the map's order. */
  lemma {:induction false} ItemNameCacheConcat(a: seq<Item>, b: seq<Item>)
    ensures ItemNameCache(a + b) == ItemNameCache(a) + ItemNameCache(b)
  {
    if |a| == 0 {
      assert a + b == b;
    } else {
      assert (a + b)[1..] == a[1..] + b;
      ItemNameCacheConcat(a[1..], b);
    }
  }

  /** The test the category cache applies: the first entry of the first tag
      reads "custom_menu". */
  predicate IsMenuTagged(c: Category) {
    |c.tags| > 0 && |c.tags[0].list| > 0 && c.tags[0].list[0].value == "custom_menu"
  }

  function CategoryNameCache(vs: seq<Category>): (names: seq<string>)
    ensures |names| <= |vs|
    ensures forall n :: n in names <==> exists i :: 0 <= i < |vs| && IsMenuTagged(vs[i]) && vs[i].name == n
  {
    if |vs| == 0 then []
    else
      var rest := CategoryNameCache(vs[1..]);
      assert forall i :: 1 <= i < |vs| ==> vs[i] == vs[1..][i - 1];
      (if IsMenuTagged(vs[0]) then [vs[0].name] else []) + rest
  }

  function FulfillmentTypeCache(vs: seq<FulfillmentEntry>): (kinds: seq<string>)
    ensures |kinds| == |vs|
    ensures forall i :: 0 <= i < |vs| ==> kinds[i] == vs[i].kind
  {
    seq(|vs|, i requires 0 <= i < |vs| => vs[i].kind)
  }

  /** The per-organization body of the loop, reached for an organization
      whose store details are set and whose location is not missing. The
      location block reads the location's fields, which throws on a `null`
      location, and then the timing's status, which throws on a store
      without timing; either aborts the batch. */
  function BuildProvider(rec: OrgRecord, sign: string -> string, timestamp: string): (r: Result<Provider, ProjectionError>)
    requires rec.org.storeDetails.Some? && !rec.org.storeDetails.value.location.Undefined?
    ensures r.Success? <==>
      && rec.org.storeDetails.value.location.Defined?
      && rec.org.storeDetails.value.storeTiming.Some?
      && BuildItemBlock(rec.org, rec.products, rec.mappings, rec.memberships, sign).Success?
    ensures rec.org.storeDetails.value.location.Null? ==> r == Failure(NullLocation(rec.org.id))
    ensures rec.org.storeDetails.value.location.Defined? && rec.org.storeDetails.value.storeTiming.None?
            ==> r == Failure(MissingStoreTiming(rec.org.id))
    ensures rec.org.storeDetails.value.location.Defined? && rec.org.storeDetails.value.storeTiming.Some?
            && r.Failure? ==>
      r.error == BuildItemBlock(rec.org, rec.products, rec.mappings, rec.memberships, sign).error
  {
    var org: StoredOrganization := rec.org;
    var store := org.storeDetails.value;
    if store.location.Null? then Failure(NullLocation(org.id))
    else if store.storeTiming.None? then Failure(MissingStoreTiming(org.id))
    else
      var timing := store.storeTiming.value;
      var loc := store.location.value;
      var fulfillments := BuildFulfillmentBlock(store.fulfillments);
      var categories := BuildCategories(rec.menus, rec.menuTimings, rec.groups, sign);
      match BuildItemBlock(org, rec.products, rec.mappings, rec.memberships, sign)
      case Failure(e) => Failure(e)
      case Success(items) =>
        Success(Provider(
          org.id,
          true,
          "P1D",
          if org.isEnabled then "enable" else "disable",
          BuildProviderDetails(org, sign),
          [(SyntheticLocationId, BuildLocationBlock(org, loc, timing, timestamp))],
          fulfillments,
          categories,
          items,
          BuildTagsBlock(timing, loc, store.radius),
          ItemNameCache(Values(items)),
          CategoryNameCache(Values(categories)),
          FulfillmentTypeCache(Values(fulfillments))))
  }

  /** One step of the loop: reading `storeDetails.location` throws for an
      organization without store details; an organization whose location
      is missing is skipped; any other is built. */
  function ProjectOrg(rec: OrgRecord, sign: string -> string, timestamp: string)
    : (r: Option<Result<Provider, ProjectionError>>)
    ensures rec.org.storeDetails.None? ==> r == Some(Failure(MissingStoreDetails(rec.org.id)))
    ensures r.None? <==> Skipped(rec)
    ensures r.Some? && rec.org.storeDetails.Some? ==> r.value == BuildProvider(rec, sign, timestamp)
  {
    if rec.org.storeDetails.None? then Some(Failure(MissingStoreDetails(rec.org.id)))
    else if rec.org.storeDetails.value.location.Undefined? then None
    else Some(BuildProvider(rec, sign, timestamp))
  }

  /** The organizations the loop skips: store details set, location missing
      (`=== undefined`; a `null` location is not skipped). */
  predicate Skipped(rec: OrgRecord) {
    rec.org.storeDetails.Some? && rec.org.storeDetails.value.location.Undefined?
  }

  /** The shape of a built provider: the organization's id, the fixed
      network fields, the label from `isEnabled`, the single synthetic
      location, the three blocks, and the tags block of the store timing. */
  lemma {:induction false} ProviderShape(rec: OrgRecord, sign: string -> string, timestamp: string, p: Provider)
    requires ProjectOrg(rec, sign, timestamp) == Some(Success(p))
    ensures rec.org.storeDetails.Some?
    ensures rec.org.storeDetails.value.location.Defined? && rec.org.storeDetails.value.storeTiming.Some?
    ensures p.providerId == rec.org.id && p.onNetworkLogistics && p.ttl == "P1D"
    ensures p.timeLabel == "enable" <==> rec.org.isEnabled
    ensures p.timeLabel != "enable" ==> p.timeLabel == "disable"
    ensures Keys(p.locations) == [SyntheticLocationId]
    ensures p.fulfillments == BuildFulfillmentBlock(rec.org.storeDetails.value.fulfillments)
    ensures p.categories == BuildCategories(rec.menus, rec.menuTimings, rec.groups, sign)
    ensures Success(p.items) == BuildItemBlock(rec.org, rec.products, rec.mappings, rec.memberships, sign)
    ensures |p.tags| == WindowCount(rec.org.storeDetails.value.storeTiming.value.enabled) + 1
    ensures p.tags[..|p.tags| - 1] == BuildTimingTags(rec.org.storeDetails.value.storeTiming.value.enabled)
    ensures p.tags[|p.tags| - 1]
         == ServiceabilityTag(rec.org.storeDetails.value.location.value, rec.org.storeDetails.value.radius)
    ensures p.itemNameCache == ItemNameCache(Values(p.items))
    ensures p.categoryNameCache == CategoryNameCache(Values(p.categories))
    ensures p.fulfillmentTypeCache == FulfillmentTypeCache(Values(p.fulfillments))
  {
    assert BuildProvider(rec, sign, timestamp) == Success(p);
  }

  /** The store-level blocks of a built provider: the descriptor built from
      the organization, and the single location block built from its
      location, its timing and the timestamp. So a "closed" store is listed
      with the label "enable", while its store-update notification says
      "close". */
  lemma {:induction false} ProviderStoreBlocks(rec: OrgRecord, sign: string -> string, timestamp: string, p: Provider)
    requires ProjectOrg(rec, sign, timestamp) == Some(Success(p))
    ensures rec.org.storeDetails.Some?
    ensures rec.org.storeDetails.value.location.Defined? && rec.org.storeDetails.value.storeTiming.Some?
    ensures p.details == BuildProviderDetails(rec.org, sign)
    ensures p.locations == [(SyntheticLocationId, BuildLocationBlock(rec.org, rec.org.storeDetails.value.location.value,
                                                                    rec.org.storeDetails.value.storeTiming.value, timestamp))]
    ensures p.locations[0].1.time.timeLabel == LocationLabel(rec.org.storeDetails.value.storeTiming.value.status)
    ensures rec.org.storeDetails.value.storeTiming.value.status == "closed" ==>
      && p.locations[0].1.time.timeLabel == "enable"
      && BuildStoreUpdateRequest(rec.org).value.location.status == "close"
  {
  }

  /** The organizations the projection runs over: those with the given id
      when one is given, all of them when it is absent or empty. */
  function SelectOrgs(recs: seq<OrgRecord>, orgId: string): (sel: seq<OrgRecord>)
    ensures |sel| <= |recs|
    ensures orgId == "" ==> sel == recs
    ensures orgId != "" ==> forall i :: 0 <= i < |sel| ==> sel[i].org.id == orgId
    ensures forall i :: 0 <= i < |recs| && (orgId == "" || recs[i].org.id == orgId) ==> recs[i] in sel
    ensures forall i :: 0 <= i < |sel| ==> sel[i] in recs
  {
    if |recs| == 0 then []
    else (if orgId == "" || recs[0].org.id == orgId then [recs[0]] else []) + SelectOrgs(recs[1..], orgId)
  }

  /** The organizations the loop does not skip, in order. */
  function NotSkipped(recs: seq<OrgRecord>): (rs: seq<OrgRecord>)
    ensures |rs| <= |recs|
    ensures forall i :: 0 <= i < |rs| ==> !Skipped(rs[i])
    ensures forall i :: 0 <= i < |recs| && !Skipped(recs[i]) ==> recs[i] in rs
    ensures forall i :: 0 <= i < |rs| ==> rs[i] in recs
  {
    if |recs| == 0 then []
    else (if Skipped(recs[0]) then [] else [recs[0]]) + NotSkipped(recs[1..])
  }

  function ProviderIds(ps: seq<Provider>): (ids: seq<string>)
    ensures |ids| == |ps|
    ensures forall i :: 0 <= i < |ps| ==> ids[i] == ps[i].providerId
  {
    seq(|ps|, i requires 0 <= i < |ps| => ps[i].providerId)
  }

  /** The loop body as a step of `Batch.Collect`. */
  function Step(sign: string -> string, timestamp: string): OrgRecord -> Option<Result<Provider, ProjectionError>> {
    rec => ProjectOrg(rec, sign, timestamp)
  }

  /** The loop over the selected organizations: those skipped give nothing,
      the others each give one provider in order, and the first failure
      aborts the whole batch. */
  function GetOrgsDetailsForOndc(recs: seq<OrgRecord>, sign: string -> string, timestamp: string)
    : (r: Result<seq<Provider>, ProjectionError>)
    ensures r.Success? ==> |r.value| <= |recs|
  {
    Batch.Collect(recs, Step(sign, timestamp))
  }

  /** `getOrgsDetailsForOndc(orgId)`: the loop over the organizations the
      optional id selects. Without an id it runs over all of them. */
  function GetOrgsDetailsFor(recs: seq<OrgRecord>, orgId: string, sign: string -> string, timestamp: string)
    : (r: Result<seq<Provider>, ProjectionError>)
    ensures orgId == "" ==> r == GetOrgsDetailsForOndc(recs, sign, timestamp)
    ensures r.Success? ==> |r.value| <= |recs|
  {
    GetOrgsDetailsForOndc(SelectOrgs(recs, orgId), sign, timestamp)
  }

  /** The batch succeeds exactly when every organization is skipped or
      built; in particular, an organization without store details, or with
      a `null` location, makes it fail. */
  lemma {:induction false} OrgsSucceedIff(recs: seq<OrgRecord>, sign: string -> string, timestamp: string)
    ensures GetOrgsDetailsForOndc(recs, sign, timestamp).Success?
        <==> forall i :: 0 <= i < |recs| ==> Batch.Passes(recs[i], Step(sign, timestamp))
    ensures GetOrgsDetailsForOndc(recs, sign, timestamp).Success? ==>
      forall i :: 0 <= i < |recs| ==>
        recs[i].org.storeDetails.Some? && !recs[i].org.storeDetails.value.location.Null?
  {
    Batch.CollectSucceedsIff(recs, Step(sign, timestamp));
  }

  lemma {:induction false} KeptIsNotSkipped(recs: seq<OrgRecord>, sign: string -> string, timestamp: string)
    ensures Batch.Kept(recs, Step(sign, timestamp)) == NotSkipped(recs)
  {
    if |recs| > 0 {
      KeptIsNotSkipped(recs[1..], sign, timestamp);
    }
  }

  /** On success the provider at position `i` is the one built from the
      `i`-th organization the loop does not skip. */
  lemma {:induction false} OrgsProviderAt(recs: seq<OrgRecord>, sign: string -> string, timestamp: string, i: nat)
    requires GetOrgsDetailsForOndc(recs, sign, timestamp).Success?
    requires i < |NotSkipped(recs)|
    ensures |GetOrgsDetailsForOndc(recs, sign, timestamp).value| == |NotSkipped(recs)|
    ensures ProjectOrg(NotSkipped(recs)[i], sign, timestamp)
         == Some(Success(GetOrgsDetailsForOndc(recs, sign, timestamp).value[i]))
  {
    KeptIsNotSkipped(recs, sign, timestamp);
    Batch.CollectAt(recs, Step(sign, timestamp), i);
  }

  /** The output has exactly as many providers as there are organizations
      the loop does not skip, and their ids are those organizations' ids. */
  lemma {:induction false} OrgsCountAndIds(recs: seq<OrgRecord>, sign: string -> string, timestamp: string)
    requires GetOrgsDetailsForOndc(recs, sign, timestamp).Success?
    ensures |GetOrgsDetailsForOndc(recs, sign, timestamp).value| == |NotSkipped(recs)|
    ensures forall i :: 0 <= i < |NotSkipped(recs)| ==>
      ProviderIds(GetOrgsDetailsForOndc(recs, sign, timestamp).value)[i] == NotSkipped(recs)[i].org.id
  {
    KeptIsNotSkipped(recs, sign, timestamp);
    Batch.CollectCount(recs, Step(sign, timestamp));
    var ps := GetOrgsDetailsForOndc(recs, sign, timestamp).value;
    forall i | 0 <= i < |NotSkipped(recs)|
      ensures ProviderIds(ps)[i] == NotSkipped(recs)[i].org.id
    {
      OrgsProviderAt(recs, sign, timestamp, i);
      ProviderShape(NotSkipped(recs)[i], sign, timestamp, ps[i]);
    }
  }

  /** On failure the error is that of the first organization that is
      neither skipped nor built. */
  lemma {:induction false} OrgsFirstFailure(recs: seq<OrgRecord>, sign: string -> string, timestamp: string)
    requires GetOrgsDetailsForOndc(recs, sign, timestamp).Failure?
    ensures exists i :: Batch.FirstFailure(recs, i, GetOrgsDetailsForOndc(recs, sign, timestamp).error, Step(sign, timestamp))
  {
    Batch.CollectFirstFailure(recs, Step(sign, timestamp));
  }

  /** With an id given, every provider the call returns is that
      organization's. */
  lemma {:induction false} SelectedProviderIds(recs: seq<OrgRecord>, orgId: string, sign: string -> string, timestamp: string)
    requires orgId != ""
    requires GetOrgsDetailsFor(recs, orgId, sign, timestamp).Success?
    ensures forall i :: 0 <= i < |GetOrgsDetailsFor(recs, orgId, sign, timestamp).value| ==>
      GetOrgsDetailsFor(recs, orgId, sign, timestamp).value[i].providerId == orgId
  {
    var sel := SelectOrgs(recs, orgId);
    OrgsCountAndIds(sel, sign, timestamp);
    var ps := GetOrgsDetailsFor(recs, orgId, sign, timestamp).value;
    forall i | 0 <= i < |ps|
      ensures ps[i].providerId == orgId
    {
      assert ProviderIds(ps)[i] == NotSkipped(sel)[i].org.id;
      assert NotSkipped(sel)[i] in sel;
    }
  }
}
