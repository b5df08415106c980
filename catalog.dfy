/** The menu as a map from primary key to item: lookups by title and the
    featured flags that the featured endpoint clears and sets. */
module Catalog {
  import opened Records

  /** The keys of the items titled `t`; a `.get(title=t)` succeeds when there is exactly one. */
  function TitleMatches(menu: map<ItemId, MenuItem>, t: string): set<ItemId> {
    set k | k in menu && menu[k].title == t
  }

  /** The keys of the categories titled `t`. */
  function CategoryMatches(categories: map<CategoryId, string>, t: string): set<CategoryId> {
    set c | c in categories && categories[c] == t
  }

  /** A successful lookup by title returns an item with that title, and no
      other item has it. */
  lemma TitleLookupIsUnique(menu: map<ItemId, MenuItem>, t: string)
    requires |TitleMatches(menu, t)| == 1
    ensures Only(TitleMatches(menu, t)) in menu
    ensures menu[Only(TitleMatches(menu, t))].title == t
    ensures forall k :: k in menu && menu[k].title == t ==> k == Only(TitleMatches(menu, t))
  {
    var ks := TitleMatches(menu, t);
    var k := Only(ks);
    assert k in ks;
    forall j | j in menu && menu[j].title == t ensures j == k {
      assert j in ks;
    }
  }

  /** The same for a category looked up by title. */
  lemma CategoryLookupIsUnique(categories: map<CategoryId, string>, t: string)
    requires |CategoryMatches(categories, t)| == 1
    ensures Only(CategoryMatches(categories, t)) in categories
    ensures categories[Only(CategoryMatches(categories, t))] == t
    ensures forall c :: c in categories && categories[c] == t ==> c == Only(CategoryMatches(categories, t))
  {
    var cs := CategoryMatches(categories, t);
    var c := Only(cs);
    assert c in cs;
    forall j | j in categories && categories[j] == t ensures j == c {
      assert j in cs;
    }
  }

  function FeaturedIds(menu: map<ItemId, MenuItem>): set<ItemId> {
    set k | k in menu && menu[k].featured
  }

  /** The menu once every featured flag is cleared; nothing else differs. */
  function Unfeatured(menu: map<ItemId, MenuItem>): (r: map<ItemId, MenuItem>)
    ensures r.Keys == menu.Keys
    ensures forall k :: k in r ==> !r[k].featured && r[k].(featured := menu[k].featured) == menu[k]
  {
    map k | k in menu :: menu[k].(featured := false)
  }

  /** The menu once every flag is cleared and then item `k`'s is set. */
  function FeatureOnly(menu: map<ItemId, MenuItem>, k: ItemId): (r: map<ItemId, MenuItem>)
    requires k in menu
    ensures r.Keys == menu.Keys
    ensures forall j :: j in r ==> (r[j].featured <==> j == k)
    ensures forall j :: j in r ==> r[j].(featured := menu[j].featured) == menu[j]
  {
    Unfeatured(menu)[k := menu[k].(featured := true)]
  }

  /** After clearing, no item is featured. */
  lemma ClearedHasNoFeatured(menu: map<ItemId, MenuItem>)
    ensures FeaturedIds(Unfeatured(menu)) == {}
  {
  }

  /** After the toggle, exactly the chosen item is featured. */
  lemma ToggleFeaturesExactlyOne(menu: map<ItemId, MenuItem>, k: ItemId)
    requires k in menu
    ensures FeaturedIds(FeatureOnly(menu, k)) == {k}
  {
  }

  /** Clearing and toggling keep titles, so the next lookup by title finds the same items. */
  lemma UnfeaturedKeepsTitles(menu: map<ItemId, MenuItem>, t: string)
    ensures TitleMatches(Unfeatured(menu), t) == TitleMatches(menu, t)
  {
  }

  lemma FeatureOnlyKeepsTitles(menu: map<ItemId, MenuItem>, k: ItemId, t: string)
    requires k in menu
    ensures TitleMatches(FeatureOnly(menu, k), t) == TitleMatches(menu, t)
  {
  }

  /** Toggling `x` and then `y` leaves the same menu as toggling `y` alone:
      the last toggle decides the one featured item. */
  lemma LastToggleWins(menu: map<ItemId, MenuItem>, x: ItemId, y: ItemId)
    requires x in menu && y in menu
    ensures FeatureOnly(FeatureOnly(menu, x), y) == FeatureOnly(menu, y)
  {
  }

  /** Saving one item changes the featured set at that key only. */
  lemma SaveChangesOneFlag(menu: map<ItemId, MenuItem>, k: ItemId, item: MenuItem)
    ensures FeaturedIds(menu[k := item]) == if item.featured then FeaturedIds(menu) + {k} else FeaturedIds(menu) - {k}
  {
  }
}
