/**
 * A supplier's online exhibition
 * (business-platform/backup/frontend-2025-10-04_12-27-42/src/components/supplier/ExhibitionGallery.tsx):
 * at most one exhibition per supplier, its items and categories, the
 * visibility switch, the item search, and publishing items to the shared
 * market.
 *
 * The component's `exhibitions` state (mirrored into local storage under
 * `exhibitions_<supplierId>`) and the shared market list are the fields of
 * one `Gallery` object. `Date.now()` ids and ISO timestamps are parameters;
 * a confirm dialog is a boolean.
 */
module ExhibitionGallery {
  import opened Common

  datatype Visibility = Public | Subscribers | Private

  datatype ExhibitionItem = ExhibitionItem(
    id: string, exhibitionId: string, name: string, description: string, price: real,
    images: seq<string>, category: string, featured: bool, stock: int,
    discount: Option<real>, tags: seq<string>, createdAt: string)

  datatype ExhibitionStats = ExhibitionStats(views: int, likes: int, shares: int, subscribers: int)

  datatype ExhibitionSettings = ExhibitionSettings(
    allowComments: bool, showPrices: bool, enableOrders: bool, requireSubscription: bool)

  datatype Exhibition = Exhibition(
    id: string, supplierId: string, supplierName: string, title: string, description: string,
    banner: string, theme: string, visibility: Visibility, items: seq<ExhibitionItem>,
    categories: seq<string>, stats: ExhibitionStats, settings: ExhibitionSettings,
    createdAt: string, updatedAt: string)

  /** The exhibition fields a form may give (`Partial<Exhibition>`); `None`
    * is a key that is not there. */
  datatype ExhibitionFields = ExhibitionFields(
    title: Option<string>, description: Option<string>, banner: Option<string>,
    theme: Option<string>, visibility: Option<Visibility>, settings: Option<ExhibitionSettings>)

  /** The item fields an edit may give (`Partial<ExhibitionItem>`). */
  datatype ItemFields = ItemFields(
    name: Option<string>, description: Option<string>, price: Option<real>, images: Option<seq<string>>,
    category: Option<string>, featured: Option<bool>, stock: Option<int>,
    discount: Option<Option<real>>, tags: Option<seq<string>>)

  /** A product as it is handed to `storage.addMarketItem`; the fixed parts
    * (`status: 'active'`, `type: 'product'`, a supplier provider rated 4.5
    * and verified, empty weight and dimensions) are left implicit. */
  datatype MarketListing = MarketListing(
    name: string, price: real, stock: int, category: string, description: string,
    images: seq<string>, sku: string, providerId: string, providerName: string,
    exhibitionId: string, exhibitionTitle: string, originalPrice: real,
    discount: Option<real>, featured: bool, tags: seq<string>)

  // ---------------------------------------------------------------------
  // Building exhibitions
  // ---------------------------------------------------------------------

  const ZeroStats := ExhibitionStats(0, 0, 0, 0)
  const DefaultSettings := ExhibitionSettings(true, true, true, false)

  /** The exhibition `createDefaultExhibition` makes: private, titled after
    * the supplier. */
  function DefaultExhibition(supplierId: string, supplierName: string, id: string, now: string): Exhibition {
    Exhibition(id, supplierId, supplierName, "معرض " + supplierName,
               "معرضي الإلكتروني لعرض جميع منتجاتي", "", "modern", Private, [], [],
               ZeroStats, DefaultSettings, now, now)
  }

  /** The exhibition `createExhibition` makes from a form; unlike the
    * default one it is public unless the form says otherwise. */
  function NewExhibition(supplierId: string, supplierName: string, data: ExhibitionFields,
                         id: string, now: string): Exhibition {
    Exhibition(id, supplierId, supplierName, OrElse(data.title, "معرضي"), OrElse(data.description, ""),
               OrElse(data.banner, ""), OrElse(data.theme, "modern"),
               if data.visibility.Some? then data.visibility.value else Public, [], [],
               ZeroStats, DefaultSettings, now, now)
  }

  /** A new exhibition is empty, has no shares yet, belongs to the supplier
    * and is public unless the form chose a visibility. */
  lemma NewExhibitionSpec(supplierId: string, supplierName: string, data: ExhibitionFields, id: string, now: string)
    ensures var e := NewExhibition(supplierId, supplierName, data, id, now);
      && e.items == [] && e.categories == [] && e.stats == ExhibitionStats(0, 0, 0, 0)
      && e.id == id && e.supplierId == supplierId
      && (data.visibility.None? ==> e.visibility == Public)
      && (data.title.None? ==> e.title == "معرضي")
    ensures DefaultExhibition(supplierId, supplierName, id, now).visibility == Private
  {
  }

  // ---------------------------------------------------------------------
  // Editing one exhibition
  // ---------------------------------------------------------------------

  /** The edits the handlers apply to the exhibition(s) with a given id. */
  datatype Edit =
    | Merge(fields: ExhibitionFields)
    | AddItem(item: ExhibitionItem)
    | PatchItem(itemId: string, itemFields: ItemFields)
    | DropItem(dropId: string)
    | Share(count: int)

  function PatchedItem(it: ExhibitionItem, p: ItemFields): ExhibitionItem {
    it.(name := Pick(p.name, it.name), description := Pick(p.description, it.description),
        price := Pick(p.price, it.price), images := Pick(p.images, it.images),
        category := Pick(p.category, it.category), featured := Pick(p.featured, it.featured),
        stock := Pick(p.stock, it.stock), discount := Pick(p.discount, it.discount),
        tags := Pick(p.tags, it.tags))
  }

  /** `item => item.id !== itemId`. */
  function NotItem(itemId: string): ExhibitionItem -> bool {
    (it: ExhibitionItem) => it.id != itemId
  }

  /** One exhibition after an edit. Every edit but a share stamps
    * `updatedAt`; a share only bumps the counter. */
  function ApplyEdit(e: Exhibition, edit: Edit, now: string): Exhibition {
    match edit
    case Merge(f) =>
      e.(title := Pick(f.title, e.title), description := Pick(f.description, e.description),
         banner := Pick(f.banner, e.banner), theme := Pick(f.theme, e.theme),
         visibility := Pick(f.visibility, e.visibility), settings := Pick(f.settings, e.settings),
         updatedAt := now)
    case AddItem(it) =>
      e.(items := e.items + [it], categories := Distinct(e.categories + [it.category]), updatedAt := now)
    case PatchItem(itemId, p) =>
      e.(items := seq(|e.items|, i requires 0 <= i < |e.items| =>
                        if e.items[i].id == itemId then PatchedItem(e.items[i], p) else e.items[i]),
         updatedAt := now)
    case DropItem(itemId) =>
      e.(items := Filter(e.items, NotItem(itemId)), updatedAt := now)
    case Share(n) =>
      e.(stats := e.stats.(shares := e.stats.shares + n))
  }

  /** `exhibitions.map(exh => exh.id === id ? edited : exh)`. */
  function EditWhere(exhs: seq<Exhibition>, id: string, edit: Edit, now: string): (r: seq<Exhibition>)
    ensures |r| == |exhs|
  {
    seq(|exhs|, i requires 0 <= i < |exhs| => if exhs[i].id == id then ApplyEdit(exhs[i], edit, now) else exhs[i])
  }

  /** Only the exhibitions with that id change, and each the same way. */
  lemma EditWhereFrame(exhs: seq<Exhibition>, id: string, edit: Edit, now: string)
    ensures var r := EditWhere(exhs, id, edit, now);
      forall i :: 0 <= i < |exhs| ==>
        r[i] == (if exhs[i].id == id then ApplyEdit(exhs[i], edit, now) else exhs[i])
  {
  }

  /** A merge sets each field the form gives, keeps each field it leaves
    * out, and never touches the id, the owner, the items, the categories,
    * the statistics or the creation time. */
  lemma MergeSpec(e: Exhibition, f: ExhibitionFields, now: string)
    ensures var r := ApplyEdit(e, Merge(f), now);
      && r.id == e.id && r.supplierId == e.supplierId && r.supplierName == e.supplierName
      && r.items == e.items && r.categories == e.categories && r.stats == e.stats
      && r.createdAt == e.createdAt && r.updatedAt == now
      && r.title == (if f.title.Some? then f.title.value else e.title)
      && r.description == (if f.description.Some? then f.description.value else e.description)
      && r.banner == (if f.banner.Some? then f.banner.value else e.banner)
      && r.theme == (if f.theme.Some? then f.theme.value else e.theme)
      && r.visibility == (if f.visibility.Some? then f.visibility.value else e.visibility)
      && r.settings == (if f.settings.Some? then f.settings.value else e.settings)
  {
  }

  /** Adding an item appends it, and the categories become the old ones
    * with the item's category added once: unchanged when it was already
    * listed, extended by it at the end otherwise. */
  lemma AddItemSpec(e: Exhibition, it: ExhibitionItem, now: string)
    requires NoDuplicates(e.categories)
    ensures var r := ApplyEdit(e, AddItem(it), now);
      && r.items == e.items + [it]
      && NoDuplicates(r.categories)
      && (forall c :: c in r.categories <==> c in e.categories || c == it.category)
      && r.categories == (if it.category in e.categories then e.categories else e.categories + [it.category])
  {
    var cats := e.categories + [it.category];
    DistinctSpec(cats);
    DistinctOfDistinct(e.categories);
    assert cats[..|cats| - 1] == e.categories;
  }

  /** Every edit keeps each exhibition's category list free of duplicates. */
  lemma EditKeepsCategoriesDistinct(exhs: seq<Exhibition>, id: string, edit: Edit, now: string)
    requires forall i :: 0 <= i < |exhs| ==> NoDuplicates(exhs[i].categories)
    ensures var r := EditWhere(exhs, id, edit, now);
      forall i :: 0 <= i < |r| ==> NoDuplicates(r[i].categories)
  {
    var r := EditWhere(exhs, id, edit, now);
    forall i | 0 <= i < |r| ensures NoDuplicates(r[i].categories) {
      if exhs[i].id == id && edit.AddItem? {
        AddItemSpec(exhs[i], edit.item, now);
      }
    }
  }

  /** Editing an item changes only the items with that id, field by field
    * as given, and keeps the order and number of items. */
  lemma PatchItemSpec(e: Exhibition, itemId: string, p: ItemFields, now: string)
    ensures var r := ApplyEdit(e, PatchItem(itemId, p), now);
      && |r.items| == |e.items|
      && (forall i :: 0 <= i < |e.items| && e.items[i].id != itemId ==> r.items[i] == e.items[i])
      && (forall i :: 0 <= i < |e.items| && e.items[i].id == itemId ==>
            r.items[i].id == itemId && r.items[i].exhibitionId == e.items[i].exhibitionId
            && (p.price.Some? ==> r.items[i].price == p.price.value)
            && (p.price.None? ==> r.items[i].price == e.items[i].price))
      && r.categories == e.categories
  {
  }

  /** Deleting an item removes every item with that id and keeps the rest. */
  lemma DropItemSpec(e: Exhibition, itemId: string, now: string)
    ensures var r := ApplyEdit(e, DropItem(itemId), now);
      && (forall it :: it in r.items <==> it in e.items && it.id != itemId)
      && |r.items| <= |e.items|
      && r.categories == e.categories
  {
    var r := ApplyEdit(e, DropItem(itemId), now);
    forall it ensures it in r.items <==> it in e.items && it.id != itemId {
      FilterMembership(e.items, NotItem(itemId), it);
    }
  }

  /** The visibility switch on a card: public becomes private, anything
    * else becomes public. */
  function Toggled(v: Visibility): (r: Visibility)
    ensures r == Public <==> v != Public
  {
    if v == Public then Private else Public
  }

  /** Switching twice restores a public or private exhibition; a
    * subscribers-only one ends up private. */
  lemma ToggledTwice(v: Visibility)
    ensures v != Subscribers ==> Toggled(Toggled(v)) == v
    ensures v == Subscribers ==> Toggled(Toggled(v)) == Private
  {
  }

  // ---------------------------------------------------------------------
  // Publishing
  // ---------------------------------------------------------------------

  /** `item.discount ? price * (1 - discount / 100) : price`; a discount of
    * 0 counts as none. */
  function FinalPrice(it: ExhibitionItem): real {
    if it.discount.Some? && it.discount.value != 0.0 then it.price * (1.0 - it.discount.value / 100.0)
    else it.price
  }

  /** A discount within [0, 100] on a non-negative price gives a published
    * price between 0 and the price; without a discount the price is kept. */
  lemma FinalPriceBounds(it: ExhibitionItem)
    ensures it.discount.None? ==> FinalPrice(it) == it.price
    ensures (it.price >= 0.0 && (it.discount.Some? ==> 0.0 <= it.discount.value <= 100.0)) ==>
      0.0 <= FinalPrice(it) <= it.price
  {
    if it.price >= 0.0 && it.discount.Some? && 0.0 <= it.discount.value <= 100.0 && it.discount.value != 0.0 {
      var f := 1.0 - it.discount.value / 100.0;
      assert 0.0 <= f <= 1.0;
      assert it.price * f <= it.price * 1.0;
      assert 0.0 <= it.price * f;
    }
  }

  /** The market item built for one exhibition item. */
  function Listing(supplierId: string, supplierName: string, e: Exhibition, it: ExhibitionItem): MarketListing {
    MarketListing(it.name, FinalPrice(it), it.stock, it.category,
                  it.description + "\n\n\U{1F4E6} من معرض: " + e.title, it.images,
                  "EXH-" + e.id + "-" + it.id, supplierId, supplierName, e.id, e.title,
                  it.price, it.discount, it.featured, it.tags)
  }

  /** The market items for a list of exhibition items, in order. */
  function Listings(supplierId: string, supplierName: string, e: Exhibition, items: seq<ExhibitionItem>)
    : (r: seq<MarketListing>)
    ensures |r| == |items|
  {
    seq(|items|, i requires 0 <= i < |items| => Listing(supplierId, supplierName, e, items[i]))
  }

  /** `exh => exh.id === id`. */
  function HasId(id: string): Exhibition -> bool {
    (e: Exhibition) => e.id == id
  }

  datatype PublishOutcome = Missing | Empty | Declined | Published(count: nat)

  // ---------------------------------------------------------------------
  // Search
  // ---------------------------------------------------------------------

  /** The search over name, description and tags, case-insensitive. */
  predicate ItemMatches(it: ExhibitionItem, term: string) {
    Matches(it.name, term) || Matches(it.description, term)
    || exists k :: 0 <= k < |it.tags| && Matches(it.tags[k], term)
  }

  function SearchHit(term: string): ExhibitionItem -> bool {
    (it: ExhibitionItem) => ItemMatches(it, term)
  }

  function InCategory(category: string): ExhibitionItem -> bool {
    (it: ExhibitionItem) => it.category == category
  }

  /** `getFilteredItems` of the gallery: an empty search and the category
    * `all` are wildcards. No view calls it. */
  function FilteredItems(e: Exhibition, term: string, category: string): seq<ExhibitionItem> {
    var found := if term == "" then e.items else Filter(e.items, SearchHit(term));
    if category == "all" then found else Filter(found, InCategory(category))
  }

  /** An item is shown exactly when it is in the exhibition, matches the
    * search (if any) and is in the chosen category (unless `all`); with
    * neither, every item is shown in order. */
  lemma FilteredItemsSpec(e: Exhibition, term: string, category: string)
    ensures forall it :: it in FilteredItems(e, term, category) <==>
      && it in e.items
      && (term == "" || ItemMatches(it, term))
      && (category == "all" || it.category == category)
    ensures term == "" && category == "all" ==> FilteredItems(e, term, category) == e.items
  {
    var found := if term == "" then e.items else Filter(e.items, SearchHit(term));
    forall it ensures it in FilteredItems(e, term, category) <==>
      && it in e.items
      && (term == "" || ItemMatches(it, term))
      && (category == "all" || it.category == category)
    {
      if term != "" {
        FilterMembership(e.items, SearchHit(term), it);
      }
      if category != "all" {
        FilterMembership(found, InCategory(category), it);
      }
    }
  }

  /** The test of `filteredItems` in `ExhibitionView`, the list the open
    * exhibition draws: the search looks at name and description only. */
  predicate ShownInView(it: ExhibitionItem, term: string, category: string) {
    && (term == "" || Matches(it.name, term) || Matches(it.description, term))
    && (category == "all" || it.category == category)
  }

  function ViewHit(term: string, category: string): ExhibitionItem -> bool {
    (it: ExhibitionItem) => ShownInView(it, term, category)
  }

  /** `exhibition.items.filter(...)` in `ExhibitionView`. */
  function ViewItems(e: Exhibition, term: string, category: string): seq<ExhibitionItem> {
    Filter(e.items, ViewHit(term, category))
  }

  /** An item is drawn exactly when it is in the exhibition, its name or
    * description matches the search (if any) and it is in the chosen
    * category (unless `all`); with neither, every item is drawn in order. */
  lemma ViewItemsSpec(e: Exhibition, term: string, category: string)
    ensures forall it :: it in ViewItems(e, term, category) <==>
      && it in e.items
      && (term == "" || Matches(it.name, term) || Matches(it.description, term))
      && (category == "all" || it.category == category)
    ensures term == "" && category == "all" ==> ViewItems(e, term, category) == e.items
  {
    forall it ensures it in ViewItems(e, term, category) <==>
      && it in e.items
      && (term == "" || Matches(it.name, term) || Matches(it.description, term))
      && (category == "all" || it.category == category)
    {
      FilterMembership(e.items, ViewHit(term, category), it);
    }
    if term == "" && category == "all" {
      FilterKeepsAll(e.items, ViewHit(term, category));
    }
  }

  /** The view draws no item the unused helper would leave out, and an item
    * that matches the search only through a tag is found by the helper but
    * not drawn. */
  lemma ViewWithinHelper(e: Exhibition, term: string, category: string, it: ExhibitionItem)
    ensures it in ViewItems(e, term, category) ==> it in FilteredItems(e, term, category)
    ensures it in e.items && term != "" && category == "all" &&
            !Matches(it.name, term) && !Matches(it.description, term) &&
            (exists k :: 0 <= k < |it.tags| && Matches(it.tags[k], term)) ==>
              it in FilteredItems(e, term, category) && it !in ViewItems(e, term, category)
  {
    ViewItemsSpec(e, term, category);
    FilteredItemsSpec(e, term, category);
  }

  // ---------------------------------------------------------------------
  // The component
  // ---------------------------------------------------------------------

  class Gallery {
    const supplierId: string
    const supplierName: string
    var exhibitions: seq<Exhibition>
    /** The shared market list items are published to. */
    var market: seq<MarketListing>

    constructor (supplierId: string, supplierName: string)
      ensures this.supplierId == supplierId && this.supplierName == supplierName
      ensures exhibitions == [] && market == []
    {
      this.supplierId := supplierId;
      this.supplierName := supplierName;
      exhibitions := [];
      market := [];
    }

    /** The load effect: the stored list when it has an exhibition, the
      * private default exhibition otherwise (no key, or an empty list). */
    method Load(stored: Option<seq<Exhibition>>, id: string, now: string)
      modifies this`exhibitions
      ensures stored.Some? && stored.value != [] ==> exhibitions == stored.value
      ensures stored.None? || stored.value == [] ==>
        exhibitions == [DefaultExhibition(supplierId, supplierName, id, now)]
      ensures |exhibitions| >= 1
    {
      if stored.Some? && stored.value != [] {
        exhibitions := stored.value;
      } else {
        exhibitions := [DefaultExhibition(supplierId, supplierName, id, now)];
      }
    }

    /** `createExhibition`: refused (null, no write) while any exhibition
      * exists, so a supplier never gets a second one this way. */
    method CreateExhibition(data: ExhibitionFields, id: string, now: string) returns (r: Option<Exhibition>)
      modifies this`exhibitions
      ensures r.None? <==> old(exhibitions) != []
      ensures r.None? ==> exhibitions == old(exhibitions)
      ensures r.Some? ==>
        r.value == NewExhibition(supplierId, supplierName, data, id, now) && exhibitions == [r.value]
    {
      if exhibitions != [] {
        return None;
      }
      var e := NewExhibition(supplierId, supplierName, data, id, now);
      exhibitions := exhibitions + [e];
      r := Some(e);
    }

    /** `updateExhibition`: the given fields merged into the exhibition(s)
      * with that id. */
    method UpdateExhibition(id: string, fields: ExhibitionFields, now: string)
      modifies this`exhibitions
      ensures exhibitions == EditWhere(old(exhibitions), id, Merge(fields), now)
    {
      exhibitions := EditWhere(exhibitions, id, Merge(fields), now);
    }

    /** The settings window's save: `onUpdate({ settings, visibility })`
      * for the exhibition it was opened on. */
    method SaveSettings(id: string, settings: ExhibitionSettings, visibility: Visibility, now: string)
      modifies this`exhibitions
      ensures exhibitions == EditWhere(old(exhibitions), id,
                                       Merge(ExhibitionFields(None, None, None, None, Some(visibility), Some(settings))), now)
    {
      UpdateExhibition(id, ExhibitionFields(None, None, None, None, Some(visibility), Some(settings)), now);
    }

    /** The visibility button on the card of exhibition `k`. */
    method ToggleVisibility(k: nat, now: string)
      requires k < |exhibitions|
      modifies this`exhibitions
      ensures var e := old(exhibitions)[k];
        exhibitions == EditWhere(old(exhibitions), e.id,
                                 Merge(ExhibitionFields(None, None, None, None, Some(Toggled(e.visibility)), None)), now)
    {
      var e := exhibitions[k];
      UpdateExhibition(e.id, ExhibitionFields(None, None, None, None, Some(Toggled(e.visibility)), None), now);
    }

    /** `deleteExhibition`, once confirmed. */
    method DeleteExhibition(id: string, confirmed: bool)
      modifies this`exhibitions
      ensures !confirmed ==> exhibitions == old(exhibitions)
      ensures confirmed ==> exhibitions == Filter(old(exhibitions), (e: Exhibition) => e.id != id)
    {
      if confirmed {
        exhibitions := Filter(exhibitions, (e: Exhibition) => e.id != id);
      }
    }

    /** `addItemToExhibition`: the item gets its id, the exhibition id and
      * its creation time. */
    method AddItemToExhibition(exhibitionId: string, draft: ExhibitionItem, itemId: string, now: string)
      modifies this`exhibitions
      ensures exhibitions == EditWhere(old(exhibitions), exhibitionId,
                                       AddItem(draft.(id := itemId, exhibitionId := exhibitionId, createdAt := now)), now)
    {
      var item := draft.(id := itemId, exhibitionId := exhibitionId, createdAt := now);
      exhibitions := EditWhere(exhibitions, exhibitionId, AddItem(item), now);
    }

    /** `updateItem`. */
    method UpdateItem(exhibitionId: string, itemId: string, fields: ItemFields, now: string)
      modifies this`exhibitions
      ensures exhibitions == EditWhere(old(exhibitions), exhibitionId, PatchItem(itemId, fields), now)
    {
      exhibitions := EditWhere(exhibitions, exhibitionId, PatchItem(itemId, fields), now);
    }

    /** `deleteItem`, once confirmed. */
    method DeleteItem(exhibitionId: string, itemId: string, confirmed: bool, now: string)
      modifies this`exhibitions
      ensures !confirmed ==> exhibitions == old(exhibitions)
      ensures confirmed ==> exhibitions == EditWhere(old(exhibitions), exhibitionId, DropItem(itemId), now)
    {
      if confirmed {
        exhibitions := EditWhere(exhibitions, exhibitionId, DropItem(itemId), now);
      }
    }

    /** `publishItemToMarket`: an unknown exhibition publishes nothing;
      * otherwise one market item, titled after the first exhibition with
      * that id, and one more share. */
    method PublishItemToMarket(exhibitionId: string, item: ExhibitionItem, now: string) returns (ok: bool)
      modifies this
      ensures ok <==> exists k :: 0 <= k < |old(exhibitions)| && old(exhibitions)[k].id == exhibitionId
      ensures !ok ==> exhibitions == old(exhibitions) && market == old(market)
      ensures ok ==>
        var e := old(exhibitions)[FirstIndex(old(exhibitions), HasId(exhibitionId)).value];
        && market == old(market) + [Listing(supplierId, supplierName, e, item)]
        && exhibitions == EditWhere(old(exhibitions), exhibitionId, Share(1), now)
    {
      var k := FirstIndex(exhibitions, HasId(exhibitionId));
      if k.None? {
        return false;
      }
      var e := exhibitions[k.value];
      market := market + [Listing(supplierId, supplierName, e, item)];
      exhibitions := EditWhere(exhibitions, exhibitionId, Share(1), now);
      ok := true;
    }

    /** `publishExhibitionToMarket`: every item of the exhibition, in order,
      * then the shares go up by the number published. A missing or empty
      * exhibition, or a declined confirm, publishes nothing. */
    method PublishExhibitionToMarket(exhibitionId: string, confirmed: bool, now: string)
      returns (outcome: PublishOutcome)
      modifies this
      ensures var k := FirstIndex(old(exhibitions), HasId(exhibitionId));
        && (k.None? <==> outcome == Missing)
        && (k.Some? && old(exhibitions)[k.value].items == [] <==> outcome == Empty)
        && (k.Some? && old(exhibitions)[k.value].items != [] && !confirmed <==> outcome == Declined)
      ensures !outcome.Published? ==> exhibitions == old(exhibitions) && market == old(market)
      ensures outcome.Published? ==>
        var e := old(exhibitions)[FirstIndex(old(exhibitions), HasId(exhibitionId)).value];
        && outcome.count == |e.items|
        && market == old(market) + Listings(supplierId, supplierName, e, e.items)
        && exhibitions == EditWhere(old(exhibitions), exhibitionId, Share(|e.items|), now)
    {
      var k := FirstIndex(exhibitions, HasId(exhibitionId));
      if k.None? {
        return Missing;
      }
      var e := exhibitions[k.value];
      if e.items == [] {
        return Empty;
      }
      if !confirmed {
        return Declined;
      }
      var published := 0;
      while published < |e.items|
        invariant 0 <= published <= |e.items|
        invariant market == old(market) + Listings(supplierId, supplierName, e, e.items[..published])
        invariant exhibitions == old(exhibitions)
        decreases |e.items| - published
      {
        market := market + [Listing(supplierId, supplierName, e, e.items[published])];
        published := published + 1;
      }
      assert e.items[..published] == e.items;
      exhibitions := EditWhere(exhibitions, exhibitionId, Share(published), now);
      outcome := Published(published);
    }
  }
}
