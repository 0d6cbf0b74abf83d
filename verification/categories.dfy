/** `build_categories_block` and its two halves: one category per custom
    menu (with the menu's timing tags appended) and one per customization
    group, spread into one object with the groups written last. */
module Categories {
  import opened OrderedMap
  import opened Records
  import opened Text
  import opened Timing

  /** A category entry; the two sources produce differently shaped entries. */
  datatype Category =
    | MenuCategory(id: string, parentCategoryId: string, name: string, shortDesc: string,
                   longDesc: string, images: seq<string>, tags: seq<Tag>)
    | GroupCategory(id: string, name: string, tags: seq<Tag>)

  /** The entry of one custom menu, before its timings are attached: its
      id, an empty parent, its descriptor with the images signed in order,
      the `custom_menu` type tag and the `display` tag holding its rank. */
  function MenuCategoryOf(m: CustomMenu, sign: string -> string): (c: Category)
    ensures c.MenuCategory? && c.id == m.id && c.parentCategoryId == "" && c.name == m.name
    ensures c.shortDesc == m.shortDescription && c.longDesc == m.longDescription && c.images == SignAll(m.images, sign)
    ensures |c.tags| == 2 && c.tags[0] == TypeTag("custom_menu")
    ensures c.tags[1] == Tag("display", [TagEntry("rank", IntToDecimal(m.rank))])
  {
    MenuCategory(m.id, "", m.name, m.shortDescription, m.longDescription, SignAll(m.images, sign),
      [TypeTag("custom_menu"), Tag("display", [TagEntry("rank", IntToDecimal(m.rank))])])
  }

  function MenuEntries(menus: seq<CustomMenu>, sign: string -> string): (es: OMap<Category>)
    ensures Keys(es) == seq(|menus|, i requires 0 <= i < |menus| => menus[i].id)
  {
    seq(|menus|, i requires 0 <= i < |menus| => (menus[i].id, MenuCategoryOf(menus[i], sign)))
  }

  function WithTimingTags(c: Category, extra: seq<Tag>): Category {
    c.(tags := c.tags + extra)
  }

  /** The timing tags the rows attach to one menu: those of every row naming
      it, in row order. */
  function MenuTimingTags(rows: seq<MenuTiming>, menuId: string): seq<Tag> {
    if |rows| == 0 then []
    else (if rows[0].customMenu == menuId then BuildTimingTags(rows[0].timings) else [])
         + MenuTimingTags(rows[1..], menuId)
  }

  /** The menu block after the first timing row is applied. */
  function AttachFirst(block: OMap<Category>, row: MenuTiming): OMap<Category> {
    if row.customMenu in Keys(block)
    then Put(block, row.customMenu,
             WithTimingTags(Lookup(block, row.customMenu), BuildTimingTags(row.timings)))
    else block
  }

  lemma {:induction false} AttachFirstEntries(block: OMap<Category>, row: MenuTiming)
    requires Valid(block)
    ensures |AttachFirst(block, row)| == |block| && Valid(AttachFirst(block, row))
    ensures forall i :: 0 <= i < |block| ==>
      AttachFirst(block, row)[i] == (block[i].0, WithTimingTags(block[i].1, MenuTimingTags([row], block[i].0)))
  {
    var k := row.customMenu;
    assert forall key ::
      MenuTimingTags([row], key) == (if k == key then BuildTimingTags(row.timings) else []) by {
      assert [row][1..] == [];
    }
    if k in Keys(block) {
      PutPresent(block, k, WithTimingTags(Lookup(block, k), BuildTimingTags(row.timings)));
      forall i | 0 <= i < |block| && block[i].0 == k
        ensures Lookup(block, k) == block[i].1
      {
        IndexOfValid(block, i);
      }
    }
    forall i | 0 <= i < |block|
      ensures AttachFirst(block, row)[i] ==
        (block[i].0, WithTimingTags(block[i].1, MenuTimingTags([row], block[i].0)))
    {
      if block[i].0 != k {
        assert block[i].1.tags + [] == block[i].1.tags;
      }
    }
  }

  /** Appending tags row by row equals appending them all at once. */
  lemma {:induction false} TagsInTurn()
    ensures forall c: Category, a: seq<Tag>, b: seq<Tag> ::
      WithTimingTags(WithTimingTags(c, a), b) == WithTimingTags(c, a + b)
  {
    forall c: Category, a: seq<Tag>, b: seq<Tag>
      ensures WithTimingTags(WithTimingTags(c, a), b) == WithTimingTags(c, a + b)
    {
      assert c.tags + a + b == c.tags + (a + b);
    }
  }

  lemma {:induction false} AttachStep(block: OMap<Category>, rows: seq<MenuTiming>, r: OMap<Category>)
    requires Valid(block) && |rows| > 0
    requires |r| == |block|
    requires forall i :: 0 <= i < |block| ==>
      r[i] == (AttachFirst(block, rows[0])[i].0,
               WithTimingTags(AttachFirst(block, rows[0])[i].1, MenuTimingTags(rows[1..], block[i].0)))
    ensures forall i :: 0 <= i < |block| ==>
      r[i] == (block[i].0, WithTimingTags(block[i].1, MenuTimingTags(rows, block[i].0)))
  {
    AttachFirstEntries(block, rows[0]);
    TagsInTurn();
    assert [rows[0]][1..] == [];
    assert forall key ::
      MenuTimingTags(rows, key) == MenuTimingTags([rows[0]], key) + MenuTimingTags(rows[1..], key);
  }

  /** The timing loop of `build_categories_block_from_custom_menu`: every
      entry keeps its key, place and fields, and its tags gain the timing
      tags of the rows naming it, after the tags it had; rows naming a menu
      that is not a key change nothing. */
  function AttachMenuTimings(block: OMap<Category>, rows: seq<MenuTiming>): (r: OMap<Category>)
    requires Valid(block)
    ensures |r| == |block| && Keys(r) == Keys(block) && Valid(r)
    ensures forall i :: 0 <= i < |block| ==>
      r[i] == (block[i].0, WithTimingTags(block[i].1, MenuTimingTags(rows, block[i].0)))
    decreases |rows|
  {
    if |rows| == 0 then
      assert forall i :: 0 <= i < |block| ==> block[i].1.tags + [] == block[i].1.tags;
      block
    else
      AttachFirstEntries(block, rows[0]);
      var r := AttachMenuTimings(AttachFirst(block, rows[0]), rows[1..]);
      AttachStep(block, rows, r);
      r
  }

  /** The menu half: one entry per menu, written in menu order, then the
      timing rows attached. */
  function BuildMenuBlock(menus: seq<CustomMenu>, timings: seq<MenuTiming>, sign: string -> string): (r: OMap<Category>)
    ensures Valid(r)
    ensures forall i :: 0 <= i < |menus| ==> menus[i].id in Keys(r)
    ensures forall k :: k in Keys(r) ==> exists i :: 0 <= i < |menus| && menus[i].id == k
  {
    var es := MenuEntries(menus, sign);
    MergeEntriesKeys(es);
    assert forall i :: 0 <= i < |es| ==> es[i].0 == menus[i].id by {
      assert forall i :: 0 <= i < |es| ==> es[i].0 == Keys(es)[i];
    }
    AttachMenuTimings(Merge([], es), timings)
  }

  /** The entry of one customization group: its id and name, the
      `custom_group` type tag, and a `config` tag holding the minimum and
      maximum quantities, the input type and the display sequence. */
  function GroupCategoryOf(g: CustomizationGroup): (c: Category)
    ensures c.GroupCategory? && c.id == g.id && c.name == g.name
    ensures |c.tags| == 2 && c.tags[0] == TypeTag("custom_group") && c.tags[1].code == "config"
    ensures |c.tags[1].list| == 4
    ensures c.tags[1].list[0] == TagEntry("min", IntToDecimal(g.minQuantity))
    ensures c.tags[1].list[1] == TagEntry("max", IntToDecimal(g.maxQuantity))
    ensures c.tags[1].list[2] == TagEntry("input", g.inputType)
    ensures c.tags[1].list[3] == TagEntry("seq", IntToDecimal(g.rank))
  {
    GroupCategory(g.id, g.name, [
      TypeTag("custom_group"),
      Tag("config", [
        TagEntry("min", IntToDecimal(g.minQuantity)),
        TagEntry("max", IntToDecimal(g.maxQuantity)),
        TagEntry("input", g.inputType),
        TagEntry("seq", IntToDecimal(g.rank))])])
  }

  function GroupEntries(groups: seq<CustomizationGroup>): (es: OMap<Category>)
    ensures Keys(es) == seq(|groups|, i requires 0 <= i < |groups| => groups[i].id)
    ensures |es| == |groups| && forall i :: 0 <= i < |groups| ==> es[i].0 == groups[i].id
  {
    seq(|groups|, i requires 0 <= i < |groups| => (groups[i].id, GroupCategoryOf(groups[i])))
  }

  /** The group half: one entry per group, written in group order; every
      group's id is a key and every key is a group's id. */
  function BuildGroupBlock(groups: seq<CustomizationGroup>): (r: OMap<Category>)
    ensures Valid(r)
    ensures forall i :: 0 <= i < |groups| ==> groups[i].id in Keys(r)
    ensures forall k :: k in Keys(r) ==> exists i :: 0 <= i < |groups| && groups[i].id == k
  {
    var es := GroupEntries(groups);
    MergeEntriesKeys(es);
    Merge([], es)
  }

  /** With distinct group ids the group half is the groups in their order,
      each with its own entry. */
  lemma {:induction false} GroupBlockOfDistinctGroups(groups: seq<CustomizationGroup>)
    requires forall i, j :: 0 <= i < j < |groups| ==> groups[i].id != groups[j].id
    ensures |BuildGroupBlock(groups)| == |groups|
    ensures forall i :: 0 <= i < |groups| ==> BuildGroupBlock(groups)[i] == (groups[i].id, GroupCategoryOf(groups[i]))
  {
    var es := GroupEntries(groups);
    assert Valid(es);
    FromDistinctEntries(es);
  }

  /** `{...custom_menu, ...custom_group}`. */
  function BuildCategories(menus: seq<CustomMenu>, timings: seq<MenuTiming>,
                           groups: seq<CustomizationGroup>, sign: string -> string): (r: OMap<Category>)
    ensures Valid(r)
    ensures forall i :: 0 <= i < |menus| ==> menus[i].id in Keys(r)
    ensures forall j :: 0 <= j < |groups| ==> groups[j].id in Keys(r)
    ensures forall k :: k in Keys(r) ==>
      (exists i :: 0 <= i < |menus| && menus[i].id == k) || (exists j :: 0 <= j < |groups| && groups[j].id == k)
  {
    var m, g := BuildMenuBlock(menus, timings, sign), BuildGroupBlock(groups);
    MergeValid(m, g);
    MergeKeysWithin(m, g);
    Merge(m, g)
  }

  /** Every category opens with its `type` tag, which says which half it
      came from, followed by at least one more tag. */
  predicate WellTagged(c: Category) {
    |c.tags| >= 2 && c.tags[0] == TypeTag(if c.MenuCategory? then "custom_menu" else "custom_group")
  }

  /** With distinct menu ids the menu half is the menus in their order, each
      carrying the timing tags of the rows that name it. */
  lemma {:induction false} MenuBlockOfDistinctMenus(menus: seq<CustomMenu>, timings: seq<MenuTiming>, sign: string -> string)
    requires forall i, j :: 0 <= i < j < |menus| ==> menus[i].id != menus[j].id
    ensures |BuildMenuBlock(menus, timings, sign)| == |menus|
    ensures forall i :: 0 <= i < |menus| ==>
      BuildMenuBlock(menus, timings, sign)[i]
      == (menus[i].id, WithTimingTags(MenuCategoryOf(menus[i], sign), MenuTimingTags(timings, menus[i].id)))
  {
    var es := MenuEntries(menus, sign);
    assert forall i :: 0 <= i < |es| ==> es[i] == (menus[i].id, MenuCategoryOf(menus[i], sign));
    assert Valid(es) by {
      assert forall i :: 0 <= i < |es| ==> Keys(es)[i] == menus[i].id;
    }
    FromDistinctEntries(es);
    var r := AttachMenuTimings(es, timings);
    assert BuildMenuBlock(menus, timings, sign) == r;
  }

  /** The category map is the spread of the two halves: the menu entries in
      menu order, a group entry replacing in place the menu entry with the
      same id, then the other group entries in group order. */
  lemma {:induction false} CategoriesLayout(menus: seq<CustomMenu>, timings: seq<MenuTiming>,
                         groups: seq<CustomizationGroup>, sign: string -> string)
    ensures Valid(BuildCategories(menus, timings, groups, sign))
    ensures BuildCategories(menus, timings, groups, sign)
         == Overlay(BuildMenuBlock(menus, timings, sign), BuildGroupBlock(groups))
            + Fresh(BuildGroupBlock(groups), BuildMenuBlock(menus, timings, sign))
  {
    MergeValid(BuildMenuBlock(menus, timings, sign), BuildGroupBlock(groups));
    MergeIsOverlayThenFresh(BuildMenuBlock(menus, timings, sign), BuildGroupBlock(groups));
  }

  /** When no group shares an id with a menu, the menu entries come first
      and the group entries after them, untouched. */
  lemma {:induction false} CategoriesOfDisjointIds(menus: seq<CustomMenu>, timings: seq<MenuTiming>,
                                groups: seq<CustomizationGroup>, sign: string -> string)
    requires forall i, j :: 0 <= i < |menus| && 0 <= j < |groups| ==> menus[i].id != groups[j].id
    ensures BuildCategories(menus, timings, groups, sign)
         == BuildMenuBlock(menus, timings, sign) + BuildGroupBlock(groups)
  {
    var m, g := BuildMenuBlock(menus, timings, sign), BuildGroupBlock(groups);
    var es := MenuEntries(menus, sign);
    MergeEntriesKeys(es);
    assert forall i :: 0 <= i < |es| ==> es[i].0 == menus[i].id by {
      assert forall i :: 0 <= i < |es| ==> es[i].0 == Keys(es)[i];
    }
    MergeDisjoint(m, g);
  }

  /** Each category of the map opens with the `type` tag of its source. */
  lemma {:induction false} CategoriesWellTagged(menus: seq<CustomMenu>, timings: seq<MenuTiming>,
                             groups: seq<CustomizationGroup>, sign: string -> string)
    ensures forall i :: 0 <= i < |BuildCategories(menus, timings, groups, sign)| ==>
      WellTagged(BuildCategories(menus, timings, groups, sign)[i].1)
  {
    var es := MenuEntries(menus, sign);
    MergeKeepsValues([], es, WellTagged);
    MergeValid([], es);
    var m := BuildMenuBlock(menus, timings, sign);
    assert forall i :: 0 <= i < |m| ==> WellTagged(m[i].1);
    MergeKeepsValues([], GroupEntries(groups), WellTagged);
    MergeKeepsValues(m, BuildGroupBlock(groups), WellTagged);
  }
}
