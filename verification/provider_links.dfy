/** References between the blocks of one provider. */
module ProviderLinks {
  import opened Wrappers
  import opened OrderedMap
  import opened Records
  import opened Items
  import opened Store

  function OptionIds(options: seq<FulfillmentOption>): (ids: seq<string>)
    ensures |ids| == |options|
    ensures forall i :: 0 <= i < |options| ==> ids[i] == options[i].id
  {
    seq(|options|, i requires 0 <= i < |options| => options[i].id)
  }

  /** An item entry's fulfillment id is empty or the id of a store option. */
  predicate KnownFulfillment(it: Item, options: seq<FulfillmentOption>) {
    it.listing.Some? ==> it.listing.value.fulfillmentId == "" || it.listing.value.fulfillmentId in OptionIds(options)
  }

  lemma {:induction false} FulfillmentIdKnown(options: seq<FulfillmentOption>, kind: string)
    ensures FulfillmentIdFor(options, kind) == "" || FulfillmentIdFor(options, kind) in OptionIds(options)
  {
    var k := FirstMatch(options, kind);
    if k < |options| {
      assert OptionIds(options)[k] == options[k].id;
    }
  }

  lemma {:induction false} EntriesKnownFulfillment(org: StoredOrganization, products: seq<Product>, mappings: seq<GroupMapping>,
                                sign: string -> string)
    ensures forall i :: 0 <= i < |products| ==>
      KnownFulfillment(ItemEntries(org, products, mappings, sign)[i].1, org.storeDetails.value.fulfillments)
  {
    forall i | 0 <= i < |products|
      ensures KnownFulfillment(ItemEntries(org, products, mappings, sign)[i].1, org.storeDetails.value.fulfillments)
    {
      FulfillmentIdKnown(org.storeDetails.value.fulfillments, products[i].fulfillmentOption);
      var it := BuildItem(org, products[i], mappings, sign);
      assert ItemEntries(org, products, mappings, sign)[i].1 == it;
    }
  }

  /** The back-filled item block keeps every entry's fulfillment id. */
  lemma {:induction false} ItemBlockKnownFulfillment(org: StoredOrganization, products: seq<Product>, mappings: seq<GroupMapping>,
                                  memberships: seq<MenuMembership>, sign: string -> string)
    requires BuildItemBlock(org, products, mappings, memberships, sign).Success?
    ensures forall i :: 0 <= i < |BuildItemBlock(org, products, mappings, memberships, sign).value| ==>
      KnownFulfillment(BuildItemBlock(org, products, mappings, memberships, sign).value[i].1, org.storeDetails.value.fulfillments)
  {
    var opts := org.storeDetails.value.fulfillments;
    var es := ItemEntries(org, products, mappings, sign);
    EntriesKnownFulfillment(org, products, mappings, sign);
    MergeKeepsValues([], es, (it: Item) => KnownFulfillment(it, opts));
    MergeValid([], es);
    var before := Merge([], es);
    var after := BuildItemBlock(org, products, mappings, memberships, sign).value;
    forall i | 0 <= i < |after|
      ensures KnownFulfillment(after[i].1, opts)
    {
      assert after[i].1 == AddCategoryIds(before[i].1, MembershipIds(memberships, before[i].0));
      assert KnownFulfillment(before[i].1, opts);
    }
  }

  /** Every fulfillment id on an item is either empty, when no store option
      has the product's type, or a key of the fulfillments block. */
  lemma {:induction false} ItemFulfillmentsResolve(org: StoredOrganization, products: seq<Product>, mappings: seq<GroupMapping>,
                                memberships: seq<MenuMembership>, sign: string -> string)
    requires BuildItemBlock(org, products, mappings, memberships, sign).Success?
    ensures
      var items := BuildItemBlock(org, products, mappings, memberships, sign).value;
      forall i :: 0 <= i < |items| && items[i].1.listing.Some? ==>
        items[i].1.listing.value.fulfillmentId == ""
        || items[i].1.listing.value.fulfillmentId in Keys(BuildFulfillmentBlock(org.storeDetails.value.fulfillments))
  {
    ItemBlockKnownFulfillment(org, products, mappings, memberships, sign);
    var opts := org.storeDetails.value.fulfillments;
    assert forall k :: k in OptionIds(opts) ==> k in Keys(BuildFulfillmentBlock(opts));
  }
}
