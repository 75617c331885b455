/** The search screen (client/src/pages/SearchScreen.tsx): a free-text query is
    matched case-insensitively against the three catalogs, every hit becomes a
    uniform `SearchResult` tagged with its kind, the hits are concatenated in
    catalog order, a tab narrows them to one kind, and a committed query is
    remembered in a short list of recent searches. */
module Search {
  import opened Common
  import opened Text
  import opened Catalog

  datatype ResultKind = DestinationResult | HotelResult | ActivityResult

  /** The `type` string a result carries. */
  function KindName(k: ResultKind): string
  {
    match k
    case DestinationResult => "destination"
    case HotelResult => "hotel"
    case ActivityResult => "activity"
  }

  /** The optional `details` fields; each kind fills only its own. */
  datatype Details = Details(
    rating: Option<real>, price: Option<int>, duration: Option<string>, date: Option<string>)

  datatype SearchResult = SearchResult(
    id: string, name: string, kind: ResultKind, location: string, imageUrl: string,
    details: Details)

  /** `name.toLowerCase().includes(q.toLowerCase()) || place.toLowerCase().includes(q.toLowerCase())`;
      the query is lower-cased but not trimmed. */
  predicate Matches(query: string, name: string, place: string)
  {
    Contains(Lower(name), Lower(query)) || Contains(Lower(place), Lower(query))
  }

  function DestinationMatches(query: string): Destination -> bool
  {
    (d: Destination) => Matches(query, d.name, d.country)
  }

  function HotelMatches(query: string): Hotel -> bool
  {
    (h: Hotel) => Matches(query, h.name, h.location)
  }

  function ActivityMatches(query: string): Activity -> bool
  {
    (a: Activity) => Matches(query, a.name, a.location)
  }

  /** `destinations.filter(...)`: the matching destinations, in catalog order
      and with their multiplicity (the positions `FilterPositions` gives). */
  function MatchingDestinations(ds: seq<Destination>, query: string): (r: seq<Destination>)
    ensures r == Filter(DestinationMatches(query), ds)
    ensures Subsequence(r, ds)
    ensures |r| <= |ds|
    ensures forall d :: d in r <==> d in ds && Matches(query, d.name, d.country)
  {
    FilterSubsequence(DestinationMatches(query), ds);
    FilterMembers(DestinationMatches(query), ds);
    Filter(DestinationMatches(query), ds)
  }

  /** `hotels.filter(...)`: the matching hotels, in catalog order. */
  function MatchingHotels(hs: seq<Hotel>, query: string): (r: seq<Hotel>)
    ensures r == Filter(HotelMatches(query), hs)
    ensures Subsequence(r, hs)
    ensures |r| <= |hs|
    ensures forall h :: h in r <==> h in hs && Matches(query, h.name, h.location)
  {
    FilterSubsequence(HotelMatches(query), hs);
    FilterMembers(HotelMatches(query), hs);
    Filter(HotelMatches(query), hs)
  }

  /** `activities.filter(...)`: the matching activities, in catalog order. */
  function MatchingActivities(acts: seq<Activity>, query: string): (r: seq<Activity>)
    ensures r == Filter(ActivityMatches(query), acts)
    ensures Subsequence(r, acts)
    ensures |r| <= |acts|
    ensures forall a :: a in r <==> a in acts && Matches(query, a.name, a.location)
  {
    FilterSubsequence(ActivityMatches(query), acts);
    FilterMembers(ActivityMatches(query), acts);
    Filter(ActivityMatches(query), acts)
  }

  function FromDestination(d: Destination): (r: SearchResult)
    ensures r.kind == DestinationResult
    ensures r.id == d.id && r.name == d.name && r.location == d.country && r.imageUrl == d.imageUrl
    ensures r.details == Details(None, None, None, Some(d.dateRange))
  {
    SearchResult(d.id, d.name, DestinationResult, d.country, d.imageUrl,
      Details(None, None, None, Some(d.dateRange)))
  }

  /** A hotel's details are its rating and its price per night. */
  function FromHotel(h: Hotel): (r: SearchResult)
    ensures r.kind == HotelResult
    ensures r.id == h.id && r.name == h.name && r.location == h.location && r.imageUrl == h.imageUrl
    ensures r.details == Details(Some(h.rating), Some(h.pricePerNight), None, None)
  {
    SearchResult(h.id, h.name, HotelResult, h.location, h.imageUrl,
      Details(Some(h.rating), Some(h.pricePerNight), None, None))
  }

  /** An activity's one detail is its duration. */
  function FromActivity(a: Activity): (r: SearchResult)
    ensures r.kind == ActivityResult
    ensures r.id == a.id && r.name == a.name && r.location == a.location && r.imageUrl == a.imageUrl
    ensures r.details == Details(None, None, Some(a.duration), None)
  {
    SearchResult(a.id, a.name, ActivityResult, a.location, a.imageUrl,
      Details(None, None, Some(a.duration), None))
  }

  function DestinationHits(cat: Catalogs, query: string): seq<SearchResult>
  {
    Map(FromDestination, MatchingDestinations(cat.destinations, query))
  }

  function HotelHits(cat: Catalogs, query: string): seq<SearchResult>
  {
    Map(FromHotel, MatchingHotels(cat.hotels, query))
  }

  function ActivityHits(cat: Catalogs, query: string): seq<SearchResult>
  {
    Map(FromActivity, MatchingActivities(cat.activities, query))
  }

  /** The aggregate the search effect builds before tab filtering: destination
      hits, then hotel hits, then activity hits. */
  function SearchAll(cat: Catalogs, query: string): seq<SearchResult>
  {
    DestinationHits(cat, query) + HotelHits(cat, query) + ActivityHits(cat, query)
  }

  /** One `forEach(x => results.push(project(x)))` loop. */
  method PushAll<T>(results: seq<SearchResult>, project: T -> SearchResult, items: seq<T>)
    returns (out: seq<SearchResult>)
    ensures out == results + Map(project, items)
  {
    out := results;
    var i := 0;
    while i < |items|
      invariant 0 <= i <= |items|
      invariant out == results + Map(project, items[..i])
    {
      MapAppend(project, items[..i], [items[i]]);
      assert items[..i + 1] == items[..i] + [items[i]];
      out := out + [project(items[i])];
      i := i + 1;
    }
    assert items[..i] == items;
  }

  /** The timer body of the search effect: filter each catalog, then push one
      projected result per hit, catalog after catalog. */
  method CollectResults(cat: Catalogs, query: string) returns (results: seq<SearchResult>)
    ensures results == SearchAll(cat, query)
  {
    results := [];
    var filteredDestinations := MatchingDestinations(cat.destinations, query);
    results := PushAll(results, FromDestination, filteredDestinations);
    assert results == DestinationHits(cat, query);
    var filteredHotels := MatchingHotels(cat.hotels, query);
    results := PushAll(results, FromHotel, filteredHotels);
    assert results == DestinationHits(cat, query) + HotelHits(cat, query);
    var filteredActivities := MatchingActivities(cat.activities, query);
    results := PushAll(results, FromActivity, filteredActivities);
  }

  /** Every result matches the query on its name or on its location (which is
      the country for a destination). */
  lemma SearchAllSound(cat: Catalogs, query: string)
    ensures forall r :: r in SearchAll(cat, query) ==> Matches(query, r.name, r.location)
  {
    var ds, hs, acts := DestinationHits(cat, query), HotelHits(cat, query), ActivityHits(cat, query);
    forall r | r in SearchAll(cat, query) ensures Matches(query, r.name, r.location) {
      if r in ds {
        var k :| 0 <= k < |ds| && ds[k] == r;
        assert MatchingDestinations(cat.destinations, query)[k] in MatchingDestinations(cat.destinations, query);
      } else if r in hs {
        var k :| 0 <= k < |hs| && hs[k] == r;
        assert MatchingHotels(cat.hotels, query)[k] in MatchingHotels(cat.hotels, query);
      } else {
        assert r in acts;
        var k :| 0 <= k < |acts| && acts[k] == r;
        assert MatchingActivities(cat.activities, query)[k] in MatchingActivities(cat.activities, query);
      }
    }
  }

  /** Every matching catalog record shows up, projected, among the results. */
  lemma SearchAllComplete(cat: Catalogs, query: string)
    ensures forall d :: d in cat.destinations && Matches(query, d.name, d.country)
                        ==> FromDestination(d) in SearchAll(cat, query)
    ensures forall h :: h in cat.hotels && Matches(query, h.name, h.location)
                        ==> FromHotel(h) in SearchAll(cat, query)
    ensures forall a :: a in cat.activities && Matches(query, a.name, a.location)
                        ==> FromActivity(a) in SearchAll(cat, query)
  {
    forall d | d in cat.destinations && Matches(query, d.name, d.country)
      ensures FromDestination(d) in SearchAll(cat, query)
    {
      MapHas(FromDestination, MatchingDestinations(cat.destinations, query), d);
    }
    forall h | h in cat.hotels && Matches(query, h.name, h.location)
      ensures FromHotel(h) in SearchAll(cat, query)
    {
      MapHas(FromHotel, MatchingHotels(cat.hotels, query), h);
    }
    forall a | a in cat.activities && Matches(query, a.name, a.location)
      ensures FromActivity(a) in SearchAll(cat, query)
    {
      MapHas(FromActivity, MatchingActivities(cat.activities, query), a);
    }
  }

  lemma MapHas<T, U>(f: T -> U, s: seq<T>, x: T)
    requires x in s
    ensures f(x) in Map(f, s)
  {
    var k :| 0 <= k < |s| && s[k] == x;
    assert Map(f, s)[k] == f(x);
  }

  /** Orders the kinds the way the aggregate lists them. */
  function KindRank(k: ResultKind): nat
  {
    match k
    case DestinationResult => 0
    case HotelResult => 1
    case ActivityResult => 2
  }

  /** All destination results come first, then all hotel results, then all
      activity results, and there are never more results than catalog records. */
  lemma SearchAllGrouped(cat: Catalogs, query: string)
    ensures |SearchAll(cat, query)| <= |cat.destinations| + |cat.hotels| + |cat.activities|
    ensures forall i, j :: 0 <= i < j < |SearchAll(cat, query)| ==>
              KindRank(SearchAll(cat, query)[i].kind) <= KindRank(SearchAll(cat, query)[j].kind)
  {
    HitsHaveKind(cat, query, DestinationResult);
    HitsHaveKind(cat, query, HotelResult);
    HitsHaveKind(cat, query, ActivityResult);
    ConcatGrouped(Hits(cat, query, DestinationResult), Hits(cat, query, HotelResult),
                  Hits(cat, query, ActivityResult));
  }

  /** Three groups of one kind each, concatenated in rank order, are ordered by rank. */
  lemma ConcatGrouped(ds: seq<SearchResult>, hs: seq<SearchResult>, acts: seq<SearchResult>)
    requires forall i :: 0 <= i < |ds| ==> ds[i].kind == DestinationResult
    requires forall i :: 0 <= i < |hs| ==> hs[i].kind == HotelResult
    requires forall i :: 0 <= i < |acts| ==> acts[i].kind == ActivityResult
    ensures forall i, j :: 0 <= i < j < |ds + hs + acts| ==>
              KindRank((ds + hs + acts)[i].kind) <= KindRank((ds + hs + acts)[j].kind)
  {
    var all := ds + hs + acts;
    forall i | 0 <= i < |all|
      ensures KindRank(all[i].kind) == if i < |ds| then 0 else if i < |ds| + |hs| then 1 else 2
    {
      if i < |ds| {
        assert all[i] == ds[i];
      } else if i < |ds| + |hs| {
        assert all[i] == hs[i - |ds|];
      } else {
        assert all[i] == acts[i - |ds| - |hs|];
      }
    }
  }

  /** `result => result.type === tab`. */
  function OfType(tab: string): SearchResult -> bool
  {
    (x: SearchResult) => KindName(x.kind) == tab
  }

  /** Tab `'all'` keeps every result; any other tab keeps exactly the results
      whose `type` equals it, in order. */
  function FilterByTab(results: seq<SearchResult>, activeTab: string): (r: seq<SearchResult>)
    ensures activeTab == "all" ==> r == results
    ensures activeTab != "all" ==> forall x :: x in r <==> x in results && KindName(x.kind) == activeTab
  {
    if activeTab != "all" then
      FilterMembers(OfType(activeTab), results);
      Filter(OfType(activeTab), results)
    else results
  }

  /** The hits of one catalog. */
  function Hits(cat: Catalogs, query: string, k: ResultKind): seq<SearchResult>
  {
    match k
    case DestinationResult => DestinationHits(cat, query)
    case HotelResult => HotelHits(cat, query)
    case ActivityResult => ActivityHits(cat, query)
  }

  /** Each group of the aggregate lists its hits in catalog order: it is the
      projected catalog with the non-matching records skipped. */
  lemma HitsInCatalogOrder(cat: Catalogs, query: string)
    ensures Subsequence(Hits(cat, query, DestinationResult), Map(FromDestination, cat.destinations))
    ensures Subsequence(Hits(cat, query, HotelResult), Map(FromHotel, cat.hotels))
    ensures Subsequence(Hits(cat, query, ActivityResult), Map(FromActivity, cat.activities))
  {
    MapSubsequence(FromDestination, MatchingDestinations(cat.destinations, query), cat.destinations);
    MapSubsequence(FromHotel, MatchingHotels(cat.hotels, query), cat.hotels);
    MapSubsequence(FromActivity, MatchingActivities(cat.activities, query), cat.activities);
  }

  lemma HitsHaveKind(cat: Catalogs, query: string, k: ResultKind)
    ensures forall i :: 0 <= i < |Hits(cat, query, k)| ==> Hits(cat, query, k)[i].kind == k
  {
  }

  /** Filtering three consecutive groups, where only one group has the selected kind. */
  lemma FilterThree(p: SearchResult -> bool, ds: seq<SearchResult>, hs: seq<SearchResult>, acts: seq<SearchResult>)
    ensures Filter(p, ds + hs + acts) == Filter(p, ds) + Filter(p, hs) + Filter(p, acts)
  {
    FilterAppend(p, ds + hs, acts);
    FilterAppend(p, ds, hs);
  }

  /** Narrowing the aggregate to one kind yields exactly that catalog's hits, in
      catalog order. */
  lemma TabSelectsOneCatalog(cat: Catalogs, query: string, k: ResultKind)
    ensures FilterByTab(SearchAll(cat, query), KindName(k)) == Hits(cat, query, k)
  {
    var ds, hs, acts := Hits(cat, query, DestinationResult), Hits(cat, query, HotelResult),
                        Hits(cat, query, ActivityResult);
    assert SearchAll(cat, query) == ds + hs + acts;
    FilterThree(OfType(KindName(k)), ds, hs, acts);
    match k
    case DestinationResult => SelectFirstGroup(cat, query);
    case HotelResult => SelectSecondGroup(cat, query);
    case ActivityResult => SelectThirdGroup(cat, query);
  }

  lemma SelectFirstGroup(cat: Catalogs, query: string)
    ensures Filter(OfType("destination"), Hits(cat, query, DestinationResult))
            + Filter(OfType("destination"), Hits(cat, query, HotelResult))
            + Filter(OfType("destination"), Hits(cat, query, ActivityResult))
            == Hits(cat, query, DestinationResult)
  {
    SelectOwnKind(cat, query, DestinationResult);
    SelectOtherKind(cat, query, DestinationResult, HotelResult);
    SelectOtherKind(cat, query, DestinationResult, ActivityResult);
  }

  lemma SelectSecondGroup(cat: Catalogs, query: string)
    ensures Filter(OfType("hotel"), Hits(cat, query, DestinationResult))
            + Filter(OfType("hotel"), Hits(cat, query, HotelResult))
            + Filter(OfType("hotel"), Hits(cat, query, ActivityResult))
            == Hits(cat, query, HotelResult)
  {
    SelectOwnKind(cat, query, HotelResult);
    SelectOtherKind(cat, query, HotelResult, DestinationResult);
    SelectOtherKind(cat, query, HotelResult, ActivityResult);
  }

  lemma SelectThirdGroup(cat: Catalogs, query: string)
    ensures Filter(OfType("activity"), Hits(cat, query, DestinationResult))
            + Filter(OfType("activity"), Hits(cat, query, HotelResult))
            + Filter(OfType("activity"), Hits(cat, query, ActivityResult))
            == Hits(cat, query, ActivityResult)
  {
    SelectOwnKind(cat, query, ActivityResult);
    SelectOtherKind(cat, query, ActivityResult, DestinationResult);
    SelectOtherKind(cat, query, ActivityResult, HotelResult);
  }

  lemma SelectOwnKind(cat: Catalogs, query: string, k: ResultKind)
    ensures Filter(OfType(KindName(k)), Hits(cat, query, k)) == Hits(cat, query, k)
  {
    HitsHaveKind(cat, query, k);
    FilterKeepsAll(OfType(KindName(k)), Hits(cat, query, k));
  }

  lemma SelectOtherKind(cat: Catalogs, query: string, k: ResultKind, j: ResultKind)
    requires j != k
    ensures Filter(OfType(KindName(k)), Hits(cat, query, j)) == []
  {
    HitsHaveKind(cat, query, j);
    FilterDropsAll(OfType(KindName(k)), Hits(cat, query, j));
  }

  /** A tab that names no kind filters everything away. */
  lemma UnknownTabIsEmpty(results: seq<SearchResult>, activeTab: string)
    requires activeTab !in {"all", "destination", "hotel", "activity"}
    ensures FilterByTab(results, activeTab) == []
  {
    FilterDropsAll(OfType(activeTab), results);
  }

  const InitialRecentSearches: seq<string> := ["Tokyo", "Hotels in Paris", "Beach activities"]

  /** The recent-search commit: a non-blank query that is not yet in the list is
      put in front of the first two old entries; otherwise the list is kept. A
      repeated query is not moved to the front. */
  function CommitRecent(recent: seq<string>, query: string): (r: seq<string>)
    ensures Trim(query) != "" && query !in recent ==>
              r == [query] + recent[..Min(2, |recent|)]
    ensures Trim(query) == "" || query in recent ==> r == recent
  {
    if Trim(query) != "" && query !in recent then [query] + recent[..Min(2, |recent|)] else recent
  }

  /** The list never grows beyond three entries, and after a commit the
      committed query is always in it. */
  lemma CommitRecentBounded(recent: seq<string>, query: string)
    requires |recent| <= 3
    ensures |CommitRecent(recent, query)| <= 3
    ensures Trim(query) != "" ==> query in CommitRecent(recent, query)
  {
  }

  /** The list starts without repeats. */
  lemma InitialRecentDistinct()
    ensures Distinct(InitialRecentSearches)
  {
  }

  /** The `includes` guard keeps the list free of repeats: a commit adds a
      query only when it is absent, and dropping the third entry removes none of
      the first two. */
  lemma CommitRecentKeepsDistinct(recent: seq<string>, query: string)
    requires Distinct(recent)
    ensures Distinct(CommitRecent(recent, query))
  {
  }

  /** Committing Tokyo, Paris, Tokyo and Rome onto an empty list leaves Rome,
      Paris and Tokyo: the repeated Tokyo stays where it was. */
  lemma CommitRecentScenario()
    ensures CommitRecent(CommitRecent(CommitRecent(CommitRecent([], "Tokyo"), "Paris"), "Tokyo"), "Rome")
            == ["Rome", "Paris", "Tokyo"]
  {
    assert Trim("Tokyo") == "Tokyo";
    assert Trim("Paris") == "Paris";
    assert Trim("Rome") == "Rome";
  }

  datatype Glyph = MapGlyph | MapPinGlyph | ClockGlyph

  /** An icon of `renderResultIcon`: a glyph and its Tailwind colour. */
  datatype Icon = Icon(glyph: Glyph, color: string)

  /** `renderResultIcon`: a total map from the `type` string to an icon. */
  function ResultIcon(resultType: string): (r: Icon)
    ensures resultType == "destination" ==> r == Icon(MapGlyph, "text-blue-500")
    ensures resultType == "hotel" ==> r == Icon(MapPinGlyph, "text-green-500")
    ensures resultType == "activity" ==> r == Icon(ClockGlyph, "text-amber-500")
    ensures resultType !in {"destination", "hotel", "activity"} ==> r == Icon(MapPinGlyph, "text-gray-500")
  {
    if resultType == "destination" then Icon(MapGlyph, "text-blue-500")
    else if resultType == "hotel" then Icon(MapPinGlyph, "text-green-500")
    else if resultType == "activity" then Icon(ClockGlyph, "text-amber-500")
    else Icon(MapPinGlyph, "text-gray-500")
  }

  /** Only an unknown type falls back to the grey pin; every result kind has an
      icon of its own. */
  lemma KindIconsDistinct(a: ResultKind, b: ResultKind)
    ensures ResultIcon(KindName(a)).color != "text-gray-500"
    ensures a != b ==> ResultIcon(KindName(a)) != ResultIcon(KindName(b))
  {
  }

  /** The screen's state: the query, the active tab, the displayed results and
      the recent searches. */
  class SearchScreen {
    var query: string
    var activeTab: string
    var searchResults: seq<SearchResult>
    var recentSearches: seq<string>
    var isSearching: bool

    constructor ()
      ensures query == "" && activeTab == "all" && searchResults == []
      ensures recentSearches == InitialRecentSearches && !isSearching
    {
      query := "";
      activeTab := "all";
      searchResults := [];
      recentSearches := InitialRecentSearches;
      isSearching := false;
    }

    /** `handleSearch` and the input's `onChange`. */
    method SetQuery(q: string)
      modifies this
      ensures query == q
      ensures activeTab == old(activeTab) && searchResults == old(searchResults)
      ensures recentSearches == old(recentSearches) && isSearching == old(isSearching)
    {
      query := q;
    }

    /** The tab bar's `onValueChange`. */
    method SetActiveTab(tab: string)
      modifies this
      ensures activeTab == tab
      ensures query == old(query) && searchResults == old(searchResults)
      ensures recentSearches == old(recentSearches) && isSearching == old(isSearching)
    {
      activeTab := tab;
    }

    /** `handleClearSearch`. */
    method ClearSearch()
      modifies this
      ensures query == ""
      ensures activeTab == old(activeTab) && searchResults == old(searchResults)
      ensures recentSearches == old(recentSearches) && isSearching == old(isSearching)
    {
      query := "";
    }

    /** The search effect, with its delayed body run at once. A blank query
        clears the results and searches nothing; otherwise the results become
        the tab-filtered aggregate and the query is committed to the recent list. */
    method RunSearch(cat: Catalogs)
      modifies this
      ensures query == old(query) && activeTab == old(activeTab)
      ensures Trim(query) == "" ==>
                searchResults == [] && recentSearches == old(recentSearches)
                && isSearching == old(isSearching)
      ensures Trim(query) != "" ==>
                searchResults == FilterByTab(SearchAll(cat, query), activeTab)
                && recentSearches == CommitRecent(old(recentSearches), query)
                && !isSearching
    {
      if Trim(query) == "" {
        searchResults := [];
        return;
      }
      isSearching := true;
      var results := CollectResults(cat, query);
      searchResults := FilterByTab(results, activeTab);
      if Trim(query) != "" && query !in recentSearches {
        recentSearches := [query] + recentSearches[..Min(2, |recentSearches|)];
      }
      isSearching := false;
    }
  }

  /** Clearing and then running the effect leaves no results: the empty query
      short-circuits before any catalog is scanned. */
  method ClearThenSearch(screen: SearchScreen, cat: Catalogs)
    modifies screen
    ensures screen.query == "" && screen.searchResults == []
    ensures screen.recentSearches == old(screen.recentSearches)
  {
    screen.ClearSearch();
    assert Trim(screen.query) == "";
    screen.RunSearch(cat);
  }
}
