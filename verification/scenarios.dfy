/** Two behaviours of the item block on small inputs: the two-product
    organization, and memberships that name no product. */
module Scenarios {
  import opened Wrappers
  import opened OrderedMap
  import opened Records
  import opened Items

  /** The item P1 of the scenario below is fulfilled by "F1". */
  lemma {:induction false} DeliveredItem(org: StoredOrganization, p1: Product, mappings: seq<GroupMapping>, sign: string -> string)
    requires |org.storeDetails.value.fulfillments| == 1
    requires org.storeDetails.value.fulfillments[0].id == "F1" && org.storeDetails.value.fulfillments[0].kind == "delivery"
    requires p1.kind == "item" && p1.fulfillmentOption == "delivery"
    ensures BuildItem(org, p1, mappings, sign).listing.Some?
    ensures BuildItem(org, p1, mappings, sign).listing.value.fulfillmentId == "F1"
  {
    assert FirstMatch(org.storeDetails.value.fulfillments, "delivery") == 0;
  }

  /** The customization P2 of the scenario below, mapped once from G1
      (default) to G2. */
  lemma {:induction false} MappedCustomization(org: StoredOrganization, p2: Product, sign: string -> string)
    requires p2.id == "P2" && p2.kind == "customization"
    ensures |BuildItem(org, p2, [GroupMapping("P2", "G1", true, "G2")], sign).tags| == 4
    ensures BuildItem(org, p2, [GroupMapping("P2", "G1", true, "G2")], sign).tags[2]
         == Tag("parent", [TagEntry("id", "G1"), TagEntry("default", "yes")])
    ensures BuildItem(org, p2, [GroupMapping("P2", "G1", true, "G2")], sign).tags[3]
         == Tag("child", [TagEntry("id", "G2")])
  {
    var mappings := [GroupMapping("P2", "G1", true, "G2")];
    assert MappingsFor(mappings, "P2") == mappings;
    assert ChildIds(mappings) == ["G2"];
    assert RelationTags(mappings) == [ParentTag(mappings[0]), ChildTag(["G2"])];
    assert ChildTag(["G2"]) == Tag("child", [TagEntry("id", "G2")]);
  }

  /** An organization whose only store option is "F1" of type "delivery"
      sells an item P1 to be delivered and a customization P2 mapped once
      from group G1 (default) to group G2. The item's fulfillment id is
      "F1"; the customization carries a parent tag for G1 with default
      "yes" and a child tag listing G2 alone. */
  lemma {:induction false} TwoProductOrganization(org: StoredOrganization, p1: Product, p2: Product, sign: string -> string)
    requires |org.storeDetails.value.fulfillments| == 1
    requires org.storeDetails.value.fulfillments[0].id == "F1" && org.storeDetails.value.fulfillments[0].kind == "delivery"
    requires p1.id == "P1" && p1.kind == "item" && p1.fulfillmentOption == "delivery"
    requires p2.id == "P2" && p2.kind == "customization"
    ensures BuildItemBlock(org, [p1, p2], [GroupMapping("P2", "G1", true, "G2")], [], sign).Success?
    ensures
      var items := BuildItemBlock(org, [p1, p2], [GroupMapping("P2", "G1", true, "G2")], [], sign).value;
      && |items| == 2 && items[0].0 == "P1" && items[1].0 == "P2"
      && items[0].1.listing.Some? && items[0].1.listing.value.fulfillmentId == "F1"
      && |items[1].1.tags| == 4
      && items[1].1.tags[2] == Tag("parent", [TagEntry("id", "G1"), TagEntry("default", "yes")])
      && items[1].1.tags[3] == Tag("child", [TagEntry("id", "G2")])
  {
    var mappings := [GroupMapping("P2", "G1", true, "G2")];
    var products := [p1, p2];
    assert products[0].id != products[1].id;
    ItemBlockSucceedsIff(org, products, mappings, [], sign);
    ItemBlockOfDistinctProducts(org, products, mappings, [], sign);
    var it1, it2 := BuildItem(org, p1, mappings, sign), BuildItem(org, p2, mappings, sign);
    AddNothing(it1);
    AddNothing(it2);
    DeliveredItem(org, p1, mappings, sign);
    MappedCustomization(org, p2, sign);
    var items := BuildItemBlock(org, products, mappings, [], sign).value;
    assert |items| == 2 && items[0] == ("P1", it1) && items[1] == ("P2", it2);
  }

  lemma {:induction false} MembershipIdsOfUnnamed(rows: seq<MenuMembership>, productId: string)
    requires forall j :: 0 <= j < |rows| ==> rows[j].product != productId
    ensures MembershipIds(rows, productId) == []
  {
    if |rows| > 0 {
      MembershipIdsOfUnnamed(rows[1..], productId);
    }
  }

  /** Membership rows that name no product of the block are skipped: the
      back-fill succeeds and changes nothing. */
  lemma {:induction false} UnknownMembershipsChangeNothing(items: OMap<Item>, rows: seq<MenuMembership>)
    requires Valid(items)
    requires forall j :: 0 <= j < |rows| ==> rows[j].product !in Keys(items)
    ensures BackFill(items, rows) == Success(items)
  {
    forall j | 0 <= j < |rows|
      ensures RowApplies(items, rows[j])
    {
      assert forall i :: 0 <= i < |items| ==> items[i].0 != rows[j].product;
    }
    var r := BackFill(items, rows).value;
    forall i | 0 <= i < |items|
      ensures r[i] == items[i]
    {
      assert items[i].0 in Keys(items);
      MembershipIdsOfUnnamed(rows, items[i].0);
      AddNothing(items[i].1);
    }
    assert r == items;
  }
}
