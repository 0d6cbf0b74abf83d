/** What the three caches of a provider hold, stated against the inputs
    rather than against the assembled maps (`Provider.ProviderShape` says
    each cache is read off its map). */
module ProviderCaches {
  import opened Wrappers
  import opened OrderedMap
  import opened Records
  import opened Categories
  import opened Items
  import opened Store
  import opened Provider

  /** The names of the products of type `item`, in product order. */
  function ItemProductNames(ps: seq<Product>): seq<string> {
    if |ps| == 0 then []
    else (if ps[0].kind == "item" then [ps[0].name] else []) + ItemProductNames(ps[1..])
  }

  /** The names of the categories that came from a custom menu, in map order. */
  function MenuNames(vs: seq<Category>): seq<string> {
    if |vs| == 0 then []
    else (if vs[0].MenuCategory? then [vs[0].name] else []) + MenuNames(vs[1..])
  }

  lemma {:induction false} ItemNameCacheOfEntries(vs: seq<Item>, ps: seq<Product>)
    requires |vs| == |ps|
    requires forall i :: 0 <= i < |vs| ==> vs[i].name == ps[i].name && (vs[i].related <==> ps[i].kind != "item")
    ensures ItemNameCache(vs) == ItemProductNames(ps)
  {
    if |vs| > 0 {
      ItemNameCacheOfEntries(vs[1..], ps[1..]);
    }
  }

  lemma {:induction false} ItemNameCacheOfSameNames(vs: seq<Item>, ws: seq<Item>)
    requires |vs| == |ws|
    requires forall i :: 0 <= i < |vs| ==> vs[i].name == ws[i].name && vs[i].related == ws[i].related
    ensures ItemNameCache(vs) == ItemNameCache(ws)
  {
    if |vs| > 0 {
      ItemNameCacheOfSameNames(vs[1..], ws[1..]);
    }
  }

  /** Before the back-fill, the entries' name cache lists the names of the
      `item` products in product order. */
  lemma {:induction false} EntriesNameCache(org: StoredOrganization, products: seq<Product>, mappings: seq<GroupMapping>,
                         sign: string -> string)
    ensures ItemNameCache(Values(ItemEntries(org, products, mappings, sign))) == ItemProductNames(products)
  {
    var vs := Values(ItemEntries(org, products, mappings, sign));
    assert forall i :: 0 <= i < |vs| ==> vs[i] == BuildItem(org, products[i], mappings, sign);
    ItemNameCacheOfEntries(vs, products);
  }

  /** The back-fill changes no name and no `related` flag, so it leaves the
      name cache as it was. */
  lemma {:induction false} BackFillKeepsNameCache(items: OMap<Item>, rows: seq<MenuMembership>)
    requires Valid(items) && BackFill(items, rows).Success?
    ensures ItemNameCache(Values(BackFill(items, rows).value)) == ItemNameCache(Values(items))
  {
    var after := BackFill(items, rows).value;
    assert forall i :: 0 <= i < |after| ==>
      after[i].1 == AddCategoryIds(items[i].1, MembershipIds(rows, items[i].0));
    ItemNameCacheOfSameNames(Values(after), Values(items));
  }

  /** With distinct product ids the item name cache lists the names of the
      `item` products in product order: the customizations, which are
      `related`, are left out. */
  lemma {:induction false} ItemCacheOfDistinctProducts(org: StoredOrganization, products: seq<Product>, mappings: seq<GroupMapping>,
                                    memberships: seq<MenuMembership>, sign: string -> string)
    requires forall i, j :: 0 <= i < j < |products| ==> products[i].id != products[j].id
    requires BuildItemBlock(org, products, mappings, memberships, sign).Success?
    ensures ItemNameCache(Values(BuildItemBlock(org, products, mappings, memberships, sign).value))
         == ItemProductNames(products)
  {
    var es := ItemEntries(org, products, mappings, sign);
    EntriesOfDistinctProductsValid(org, products, mappings, sign);
    MergeValid([], es);
    BackFillKeepsNameCache(Merge([], es), memberships);
    EntriesNameCache(org, products, mappings, sign);
  }

  /** Over well-tagged categories the "custom_menu" test picks out exactly
      the menu entries. */
  lemma {:induction false} CategoryNameCacheIsMenuNames(vs: seq<Category>)
    requires forall i :: 0 <= i < |vs| ==> WellTagged(vs[i])
    ensures CategoryNameCache(vs) == MenuNames(vs)
  {
    if |vs| > 0 {
      CategoryNameCacheIsMenuNames(vs[1..]);
    }
  }

  /** The category name cache lists the names of the entries that came from
      a custom menu, in map order. */
  lemma {:induction false} CategoryCacheOfMenus(menus: seq<CustomMenu>, timings: seq<MenuTiming>,
                             groups: seq<CustomizationGroup>, sign: string -> string)
    ensures CategoryNameCache(Values(BuildCategories(menus, timings, groups, sign)))
         == MenuNames(Values(BuildCategories(menus, timings, groups, sign)))
  {
    CategoriesWellTagged(menus, timings, groups, sign);
    CategoryNameCacheIsMenuNames(Values(BuildCategories(menus, timings, groups, sign)));
  }

  lemma {:induction false} MenuNamesConcat(a: seq<Category>, b: seq<Category>)
    ensures MenuNames(a + b) == MenuNames(a) + MenuNames(b)
  {
    if |a| == 0 {
      assert a + b == b;
    } else {
      assert (a + b)[0] == a[0] && (a + b)[1..] == a[1..] + b;
      MenuNamesConcat(a[1..], b);
    }
  }

  lemma {:induction false} MenuNamesOfMenus(vs: seq<Category>, menus: seq<CustomMenu>)
    requires |vs| == |menus|
    requires forall i :: 0 <= i < |vs| ==> vs[i].MenuCategory? && vs[i].name == menus[i].name
    ensures MenuNames(vs) == seq(|menus|, i requires 0 <= i < |menus| => menus[i].name)
  {
    if |vs| > 0 {
      MenuNamesOfMenus(vs[1..], menus[1..]);
    }
  }

  lemma {:induction false} MenuNamesOfGroups(vs: seq<Category>)
    requires forall i :: 0 <= i < |vs| ==> vs[i].GroupCategory?
    ensures MenuNames(vs) == []
  {
    if |vs| > 0 {
      MenuNamesOfGroups(vs[1..]);
    }
  }

  lemma {:induction false} MenuNamesOfMenuBlock(menus: seq<CustomMenu>, timings: seq<MenuTiming>, sign: string -> string)
    requires forall i, j :: 0 <= i < j < |menus| ==> menus[i].id != menus[j].id
    ensures MenuNames(Values(BuildMenuBlock(menus, timings, sign)))
         == seq(|menus|, i requires 0 <= i < |menus| => menus[i].name)
  {
    MenuBlockOfDistinctMenus(menus, timings, sign);
    MenuNamesOfMenus(Values(BuildMenuBlock(menus, timings, sign)), menus);
  }

  lemma {:induction false} MenuNamesOfGroupBlock(groups: seq<CustomizationGroup>)
    ensures MenuNames(Values(BuildGroupBlock(groups))) == []
  {
    MergeKeepsValues([], GroupEntries(groups), (c: Category) => c.GroupCategory?);
    MenuNamesOfGroups(Values(BuildGroupBlock(groups)));
  }

  /** With distinct menu ids that no group reuses, the menu entries of the
      category map carry the menu names in menu order. */
  lemma {:induction false} MenuNamesOfCategories(menus: seq<CustomMenu>, timings: seq<MenuTiming>,
                              groups: seq<CustomizationGroup>, sign: string -> string)
    requires forall i, j :: 0 <= i < j < |menus| ==> menus[i].id != menus[j].id
    requires forall i, j :: 0 <= i < |menus| && 0 <= j < |groups| ==> menus[i].id != groups[j].id
    ensures MenuNames(Values(BuildCategories(menus, timings, groups, sign)))
         == seq(|menus|, i requires 0 <= i < |menus| => menus[i].name)
  {
    var m := BuildMenuBlock(menus, timings, sign);
    var g := BuildGroupBlock(groups);
    CategoriesOfDisjointIds(menus, timings, groups, sign);
    ValuesConcat(m, g);
    MenuNamesConcat(Values(m), Values(g));
    MenuNamesOfMenuBlock(menus, timings, sign);
    MenuNamesOfGroupBlock(groups);
  }

  /** With distinct menu ids that no group reuses, the category name cache
      lists the menu names in menu order. */
  lemma {:induction false} CategoryCacheOfDistinctMenus(menus: seq<CustomMenu>, timings: seq<MenuTiming>,
                                     groups: seq<CustomizationGroup>, sign: string -> string)
    requires forall i, j :: 0 <= i < j < |menus| ==> menus[i].id != menus[j].id
    requires forall i, j :: 0 <= i < |menus| && 0 <= j < |groups| ==> menus[i].id != groups[j].id
    ensures CategoryNameCache(Values(BuildCategories(menus, timings, groups, sign)))
         == seq(|menus|, i requires 0 <= i < |menus| => menus[i].name)
  {
    CategoryCacheOfMenus(menus, timings, groups, sign);
    MenuNamesOfCategories(menus, timings, groups, sign);
  }

  /** With distinct fulfillment ids the type cache lists every store
      fulfillment's type in store order. */
  lemma {:induction false} FulfillmentCacheOfDistinctIds(options: seq<FulfillmentOption>)
    requires forall i, j :: 0 <= i < j < |options| ==> options[i].id != options[j].id
    ensures FulfillmentTypeCache(Values(BuildFulfillmentBlock(options)))
         == seq(|options|, i requires 0 <= i < |options| => options[i].kind)
  {
    FulfillmentBlockOfDistinctIds(options);
  }
}
