/** The public feed of App.tsx: the three listing collections, the filter
    state the header and tab bar edit, the visibility filter applied to the
    active collection, and the saved and visited id sets. */
module Feed {
  import opened Basics
  import opened Listings

  /** The owner id the feed treats as "my" ads; App.tsx hardcodes it. */
  const CurrentUser := "user_123"

  /** The city selector's initial value ("all provinces" in Dari). */
  const InitialCityFilter := "همه ولایات"

  /** A province list of the translation table; its first entry is the
      "all provinces" sentinel. */
  type ProvinceList = s: seq<string> | |s| > 0 witness ["همه ولایات"]

  /** The province lists of the Dari and Pashto translation tables, index
      for index the same province. */
  datatype Translations = Translations(dari: ProvinceList, pashto: ProvinceList)
  {
    function Provinces(lang: Language): ProvinceList
    {
      if lang == Dari then dari else pashto
    }

    function AllProvinces(lang: Language): string
    {
      Provinces(lang)[0]
    }
  }

  /** `Array.prototype.indexOf`: the first index of `x`, or -1. */
  function IndexOf(s: seq<string>, x: string): (k: int)
    ensures -1 <= k < |s|
    ensures k == -1 <==> x !in s
    ensures 0 <= k ==> s[k] == x && x !in s[..k]
  {
    if s == [] then -1
    else if s[0] == x then 0
    else
      var k := IndexOf(s[1..], x);
      assert k >= 0 ==> s[1..][..k] == s[1..k + 1];
      if k == -1 then -1 else k + 1
  }

  /** `s[k]`, which is `undefined` outside the array. */
  function ElementAt(s: seq<string>, k: int): Option<string>
  {
    if 0 <= k < |s| then Some(s[k]) else None
  }

  /** `activeEstateFilter`: 'ALL' or one deal type. */
  datatype EstateFilter = AllDeals | OnlyDeal(deal: DealType)

  datatype ViewMode = ListView | MapView

  /** Everything `filteredItems` reads besides the collections. */
  datatype FeedFilter = FeedFilter(appMode: AppMode, searchTerm: string,
                                   estateFilter: EstateFilter, cityFilter: string,
                                   lang: Language, showOnlySaved: bool,
                                   showOnlyMyAds: bool, savedIds: set<string>)

  /** Case-insensitive substring test of the search term in the title. */
  predicate MatchesSearch(item: Listing, term: string)
  {
    Contains(Lower(item.title), Lower(term))
  }

  /** The deal-type chips only apply to real-estate mode. A non-property
      item has no `dealType`, so it never equals a chosen deal type. */
  predicate MatchesEstateFilter(item: Listing, mode: AppMode, filter: EstateFilter)
  {
    if mode == Estate then filter == AllDeals || (item.Property? && filter == OnlyDeal(item.dealType))
    else true
  }

  /** The selector is the "all" sentinel, or equals the item's city, or (in
      Pashto) names the province whose Dari name the item carries. */
  predicate MatchesCity(item: Listing, selector: string, lang: Language, tr: Translations)
  {
    || selector == tr.AllProvinces(lang)
    || item.city == selector
    || (lang == Pashto && ElementAt(tr.dari, IndexOf(tr.pashto, selector)) == Some(item.city))
  }

  predicate MatchesSaved(item: Listing, f: FeedFilter)
  {
    f.showOnlySaved ==> item.id in f.savedIds
  }

  /** The callback given to `baseItems.filter`. */
  predicate Shown(item: Listing, f: FeedFilter, tr: Translations)
  {
    if f.showOnlyMyAds then item.ownerId == CurrentUser
    else
      && item.status == Approved
      && MatchesSearch(item, f.searchTerm)
      && MatchesEstateFilter(item, f.appMode, f.estateFilter)
      && MatchesCity(item, f.cityFilter, f.lang, tr)
      && MatchesSaved(item, f)
  }

  /** `items.filter(item => Shown(item))`: exactly the shown items, in order. */
  function Filtered(items: seq<Listing>, f: FeedFilter, tr: Translations): (r: seq<Listing>)
    ensures IsSubsequence(r, items)
    ensures forall x :: x in r <==> x in items && Shown(x, f, tr)
  {
    if items == [] then []
    else if Shown(items[0], f, tr) then [items[0]] + Filtered(items[1..], f, tr)
    else Filtered(items[1..], f, tr)
  }

  /** The collection `appMode` selects. */
  function BaseItems(mode: AppMode, properties: seq<Listing>, jobs: seq<Listing>,
                     services: seq<Listing>): seq<Listing>
  {
    match mode
    case Estate => properties
    case Jobs => jobs
    case Services => services
  }

  // ------------------------------------------------ properties of the filter

  /** Filtering a concatenation filters each part. */
  lemma {:induction false} FilteredAppend(a: seq<Listing>, b: seq<Listing>, f: FeedFilter, tr: Translations)
    ensures Filtered(a + b, f, tr) == Filtered(a, f, tr) + Filtered(b, f, tr)
  {
    if a != [] {
      assert (a + b)[0] == a[0] && (a + b)[1..] == a[1..] + b;
      FilteredAppend(a[1..], b, f, tr);
    } else {
      assert a + b == b;
    }
  }

  /** A collection whose every item is shown passes the filter whole, and
      one with no shown item leaves nothing. */
  lemma {:induction false} FilteredAllOrNothing(items: seq<Listing>, f: FeedFilter, tr: Translations)
    ensures (forall x :: x in items ==> Shown(x, f, tr)) ==> Filtered(items, f, tr) == items
    ensures (forall x :: x in items ==> !Shown(x, f, tr)) ==> Filtered(items, f, tr) == []
  {
    if items != [] {
      FilteredAllOrNothing(items[1..], f, tr);
      assert forall x :: x in items[1..] ==> x in items;
      assert items == [items[0]] + items[1..];
    }
  }


  /** With "my ads" on, the feed is exactly the items owned by `user_123`,
      whatever their status and whatever the other filters say. */
  lemma MyAdsShowsExactlyOwned(items: seq<Listing>, f: FeedFilter, tr: Translations)
    requires f.showOnlyMyAds
    ensures forall x :: x in Filtered(items, f, tr) <==> x in items && x.ownerId == CurrentUser
  {
  }

  /** Otherwise only APPROVED items can appear: PENDING and REJECTED never do. */
  lemma PublicFeedIsApproved(items: seq<Listing>, f: FeedFilter, tr: Translations)
    requires !f.showOnlyMyAds
    ensures forall x :: x in Filtered(items, f, tr) ==> x.status == Approved
  {
  }

  /** The empty search term matches every title. */
  lemma EmptySearchMatchesAll(item: Listing)
    ensures MatchesSearch(item, "")
  {
    assert Lower("") == "";
    ContainsEmpty(Lower(item.title));
  }

  /** Searching is blind to letter case, in the term and in the title. */
  lemma SearchIgnoresCase(item: Listing, term: string)
    ensures MatchesSearch(item, Lower(term)) == MatchesSearch(item, term)
    ensures MatchesSearch(item.(title := Lower(item.title)), term) == MatchesSearch(item, term)
  {
    LowerIdempotent(term);
    LowerIdempotent(item.title);
  }

  /** A title that contains the term verbatim always matches. */
  lemma TitleContainingTermMatches(item: Listing, term: string, k: nat)
    requires k + |term| <= |item.title| && item.title[k..k + |term|] == term
    ensures MatchesSearch(item, term)
  {
    var t, l := Lower(item.title), Lower(term);
    assert t[k..k + |l|] == l;
    ContainsAt(t, l, k);
  }

  /** Outside real-estate mode the deal-type test always passes. */
  lemma DealFilterOnlyInEstateMode(item: Listing, mode: AppMode, filter: EstateFilter)
    requires mode != Estate
    ensures MatchesEstateFilter(item, mode, filter)
  {
  }

  /** In real-estate mode with a chosen deal type, only properties of that
      deal type pass. */
  lemma DealFilterSelectsDealType(item: Listing, deal: DealType)
    ensures MatchesEstateFilter(item, Estate, OnlyDeal(deal)) <==> item.Property? && item.dealType == deal
  {
  }

  /** The Pashto selector at index k matches an item whose city is the Dari
      province at the same index (the first occurrence of that Pashto name). */
  lemma PashtoSelectorMatchesDariCity(item: Listing, tr: Translations, k: nat)
    requires k < |tr.pashto| && k < |tr.dari|
    requires tr.pashto[k] !in tr.pashto[..k]
    requires item.city == tr.dari[k]
    ensures MatchesCity(item, tr.pashto[k], Pashto, tr)
  {
  }

  /** The "all provinces" sentinel of the current language lets every city through. */
  lemma AllProvincesMatchesEveryCity(item: Listing, lang: Language, tr: Translations)
    ensures MatchesCity(item, tr.AllProvinces(lang), lang, tr)
  {
  }

  /** In Dari, a city selector other than the sentinel needs an exact match. */
  lemma DariCityNeedsExactMatch(item: Listing, selector: string, tr: Translations)
    requires selector != tr.AllProvinces(Dari)
    ensures MatchesCity(item, selector, Dari, tr) <==> item.city == selector
  {
  }

  /** With saved-only on (and my-ads off), only saved ids remain. */
  lemma SavedOnlyKeepsSaved(items: seq<Listing>, f: FeedFilter, tr: Translations)
    requires f.showOnlySaved && !f.showOnlyMyAds
    ensures forall x :: x in Filtered(items, f, tr) ==> x.id in f.savedIds
  {
  }

  /** The filter state right after `resetFilters` (search, chips, city,
      saved-only and my-ads all cleared). */
  function ResetFilter(lang: Language, savedIds: set<string>, tr: Translations): FeedFilter
  {
    FeedFilter(Estate, "", AllDeals, tr.AllProvinces(lang), lang, false, false, savedIds)
  }

  /** After a reset the feed is exactly the APPROVED properties, in order. */
  lemma ResetFeedIsApprovedProperties(properties: seq<Listing>, lang: Language,
                                      savedIds: set<string>, tr: Translations)
    ensures forall x :: x in Filtered(properties, ResetFilter(lang, savedIds, tr), tr)
                        <==> x in properties && x.status == Approved
  {
    forall x | x in properties
      ensures Shown(x, ResetFilter(lang, savedIds, tr), tr) <==> x.status == Approved
    {
      EmptySearchMatchesAll(x);
    }
  }

  // --------------------------------------------------------- saved ids

  /** `toggleSave`: `id` leaves the set if it was in it and joins it otherwise. */
  function Toggled(ids: set<string>, id: string): (r: set<string>)
    ensures id in r <==> id !in ids
    ensures forall x :: x != id ==> (x in r <==> x in ids)
  {
    if id in ids then ids - {id} else ids + {id}
  }

  /** Toggling twice restores the set. */
  lemma ToggleTwiceRestores(ids: set<string>, id: string)
    ensures Toggled(Toggled(ids, id), id) == ids
  {
  }

  // ----------------------------------------------------------- app state

  /** The three collections App.tsx keeps (`properties`, `jobs`, `services`);
      the admin panel replaces them through their setters. */
  class ListingStore {
    var properties: seq<Listing>
    var jobs: seq<Listing>
    var services: seq<Listing>

    constructor (properties: seq<Listing>, jobs: seq<Listing>, services: seq<Listing>)
      ensures this.properties == properties && this.jobs == jobs && this.services == services
    {
      this.properties, this.jobs, this.services := properties, jobs, services;
    }

    function Collection(mode: AppMode): seq<Listing>
      reads this
    {
      BaseItems(mode, properties, jobs, services)
    }
  }

  /** The state of the `App` component that the feed depends on. The stored
      fields stand for the `saved_ads` and `app_lang` local-storage keys. */
  class App {
    const store: ListingStore
    const translations: Translations
    var appMode: AppMode
    var viewMode: ViewMode
    var searchTerm: string
    var showOnlySaved: bool
    var showOnlyMyAds: bool
    var activeEstateFilter: EstateFilter
    var cityFilter: string
    var lang: Language
    var savedIds: set<string>
    var visitedIds: set<string>
    var selectedItem: Option<Listing>
    var storedSavedIds: set<string>
    var storedLang: Language

    /** Mount: the language and the saved ids come from local storage; the
        language effect then moves a sentinel city selector to the
        sentinel of the current language. */
    constructor (store: ListingStore, translations: Translations,
                 storedLang: Option<Language>, storedSavedIds: Option<set<string>>)
      ensures this.store == store && this.translations == translations
      ensures lang == (if storedLang.Some? then storedLang.value else Dari)
      ensures savedIds == (if storedSavedIds.Some? then storedSavedIds.value else {})
      ensures this.storedSavedIds == savedIds && this.storedLang == lang
      ensures appMode == Estate && viewMode == ListView && searchTerm == ""
      ensures !showOnlySaved && !showOnlyMyAds && activeEstateFilter == AllDeals
      ensures visitedIds == {} && selectedItem == None
      ensures cityFilter == if InitialCityFilter in {translations.dari[0], translations.pashto[0]}
                            then translations.AllProvinces(lang) else InitialCityFilter
    {
      this.store := store;
      this.translations := translations;
      appMode, viewMode, searchTerm := Estate, ListView, "";
      showOnlySaved, showOnlyMyAds, activeEstateFilter := false, false, AllDeals;
      var l := if storedLang.Some? then storedLang.value else Dari;
      var saved := if storedSavedIds.Some? then storedSavedIds.value else {};
      lang, savedIds := l, saved;
      visitedIds, selectedItem := {}, None;
      this.storedSavedIds := saved;
      this.storedLang := l;
      cityFilter := if InitialCityFilter in {translations.dari[0], translations.pashto[0]}
                    then translations.AllProvinces(l) else InitialCityFilter;
    }

    function Filter(): FeedFilter
      reads this
    {
      FeedFilter(appMode, searchTerm, activeEstateFilter, cityFilter, lang,
                 showOnlySaved, showOnlyMyAds, savedIds)
    }

    /** `filteredItems`: the shown items of the collection `appMode` picks,
        in the collection's order. */
    function FilteredItems(): (r: seq<Listing>)
      reads this, store
      ensures IsSubsequence(r, store.Collection(appMode))
      ensures forall x :: x in r <==> x in store.Collection(appMode) && Shown(x, Filter(), translations)
    {
      Filtered(store.Collection(appMode), Filter(), translations)
    }

    /** `toggleSave`; the effect on `savedIds` writes the new set to storage. */
    method ToggleSave(id: string)
      modifies this`savedIds, this`storedSavedIds
      ensures savedIds == Toggled(old(savedIds), id)
      ensures storedSavedIds == savedIds
    {
      var next := savedIds;
      if id in next {
        next := next - {id};
      } else {
        next := next + {id};
      }
      savedIds := next;
      storedSavedIds := savedIds;
    }

    /** `handleSelectItem`: mark the item visited and open it. */
    method HandleSelectItem(item: Listing)
      modifies this`visitedIds, this`selectedItem
      ensures visitedIds == old(visitedIds) + {item.id}
      ensures selectedItem == Some(item)
    {
      visitedIds := visitedIds + {item.id};
      selectedItem := Some(item);
    }

    /** `resetFilters` (the logo button). */
    method ResetFilters()
      modifies this`appMode, this`showOnlySaved, this`showOnlyMyAds,
               this`activeEstateFilter, this`searchTerm, this`cityFilter, this`viewMode
      ensures Filter() == ResetFilter(lang, savedIds, translations)
      ensures viewMode == ListView
    {
      appMode := Estate;
      showOnlySaved := false;
      showOnlyMyAds := false;
      activeEstateFilter := AllDeals;
      searchTerm := "";
      cityFilter := translations.AllProvinces(lang);
      viewMode := ListView;
    }

    /** The language button, followed by the effect on `lang`: store the
        language and, if the city selector is either language's sentinel,
        move it to the new language's sentinel. */
    method ToggleLanguage()
      modifies this`lang, this`storedLang, this`cityFilter
      ensures lang == (if old(lang) == Dari then Pashto else Dari)
      ensures storedLang == lang
      ensures cityFilter == if old(cityFilter) in {translations.dari[0], translations.pashto[0]}
                            then translations.AllProvinces(lang) else old(cityFilter)
    {
      lang := if lang == Dari then Pashto else Dari;
      storedLang := lang;
      if cityFilter == translations.dari[0] || cityFilter == translations.pashto[0] {
        cityFilter := translations.AllProvinces(lang);
      }
    }
  }
}
