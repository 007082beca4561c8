/**
 * The catalog on the home page (`Home`).
 *
 * The page keeps the loaded listings, a loading flag, the text of the search
 * box and the selected type button ("all", "house", "apartment" or "condo").
 * What it shows is a filter of the listings: a listing stays when its title or
 * its location contains the search text, ignoring case, and its type is the
 * selected one (any type for "all").
 */
module Catalog {
  import opened Text
  import Seqs

  /** A listing as the catalog cards and the detail page use it. */
  datatype Property = Property(id: nat, title: string, price: nat, propertyType: string, location: string)

  /** The listings the home page loads, in catalog order. */
  const Listings: seq<Property> := [
    Property(1, "Modern Waterfront Villa", 1250000, "house", "Miami Beach, FL"),
    Property(2, "Downtown Luxury Apartment", 650000, "apartment", "Manhattan, NY"),
    Property(3, "Rustic Mountain Cabin", 425000, "house", "Aspen, CO"),
    Property(4, "Modern Condo with City Views", 580000, "condo", "Seattle, WA"),
    Property(5, "Beachfront Bungalow", 875000, "house", "Santa Monica, CA"),
    Property(6, "Urban Studio Loft", 320000, "apartment", "Chicago, IL")]

  // ---------------------------------------------------------------------------
  // The filter
  // ---------------------------------------------------------------------------

  /** The search text occurs in the title or the location, ignoring case. */
  predicate MatchesSearch(p: Property, query: string): (r: bool)
    ensures r ==> |query| <= |p.title| || |query| <= |p.location|
    ensures query == "" ==> r
  {
    assert ToLower("") == "";
    Includes(ToLower(p.title), ToLower(query)) || Includes(ToLower(p.location), ToLower(query))
  }

  /** The type button lets the listing through. */
  predicate MatchesFilter(p: Property, filterType: string): (r: bool)
    ensures filterType == "all" ==> r
    ensures filterType != "all" ==> (r <==> p.propertyType == filterType)
  {
    filterType == "all" || p.propertyType == filterType
  }

  /** The test passed to `properties.filter`. */
  function Shown(query: string, filterType: string): Property -> bool {
    p => MatchesSearch(p, query) && MatchesFilter(p, filterType)
  }

  /** `filteredProperties`: the listings that pass the search and the type button, in order. */
  function FilterProperties(ps: seq<Property>, query: string, filterType: string): (r: seq<Property>)
    ensures forall p :: p in r <==> p in ps && MatchesSearch(p, query) && MatchesFilter(p, filterType)
    ensures Seqs.IsSubsequence(r, ps)
  {
    var r := Seqs.Filter(ps, Shown(query, filterType));
    Seqs.FilterIsSubsequence(ps, Shown(query, filterType));
    r
  }

  /** A shown listing appears as often as in the catalog; a hidden one not at all. */
  lemma FilterPropertiesCounts(ps: seq<Property>, query: string, filterType: string)
    ensures forall p :: multiset(FilterProperties(ps, query, filterType))[p] ==
              if MatchesSearch(p, query) && MatchesFilter(p, filterType) then multiset(ps)[p] else 0
  {
    Seqs.FilterCount(ps, Shown(query, filterType));
  }

  /** Filtering the shown listings again with the same search and type shows the same listings. */
  lemma FilterIdempotent(ps: seq<Property>, query: string, filterType: string)
    ensures FilterProperties(FilterProperties(ps, query, filterType), query, filterType)
            == FilterProperties(ps, query, filterType)
  {
    Seqs.FilterIdempotent(ps, Shown(query, filterType));
  }

  /** An empty search box with the "all" button shows every listing. */
  lemma EmptySearchShowsAll(ps: seq<Property>)
    ensures FilterProperties(ps, "", "all") == ps
  {
    Seqs.FilterAllKept(ps, Shown("", "all"));
  }

  /** Search texts that differ only in ASCII case select the same listings. */
  lemma SearchIgnoresCase(ps: seq<Property>, query: string, query': string, filterType: string)
    requires SameIgnoringCase(query, query')
    ensures FilterProperties(ps, query, filterType) == FilterProperties(ps, query', filterType)
  {
    ToLowerEqualIff(query, query');
    Seqs.FilterCongruent(ps, Shown(query, filterType), Shown(query', filterType));
  }

  /** In particular, a search text and its lowercase select the same listings. */
  lemma SearchAsLowercase(ps: seq<Property>, query: string, filterType: string)
    ensures FilterProperties(ps, query, filterType) == FilterProperties(ps, ToLower(query), filterType)
  {
    ToLowerSameIgnoringCase(query);
    SearchIgnoresCase(ps, query, ToLower(query), filterType);
  }

  /** The "Condo" button with an empty search box shows the one condominium of the catalog. */
  lemma CondoExample()
    ensures FilterProperties(Listings, "", "condo") == [Listings[3]]
  {
    var keep := Shown("", "condo");
    assert !keep(Listings[0]) && !keep(Listings[1]) && !keep(Listings[2]);
    assert keep(Listings[3]) && !keep(Listings[4]) && !keep(Listings[5]);
    CondoTail(keep);
    assert Seqs.Filter(Listings[3..], keep) == [Listings[3]];
    assert Seqs.Filter(Listings[2..], keep) == [Listings[3]];
    assert Seqs.Filter(Listings[1..], keep) == [Listings[3]];
  }

  lemma CondoTail(keep: Property -> bool)
    requires !keep(Listings[4]) && !keep(Listings[5])
    ensures Seqs.Filter(Listings[4..], keep) == []
  {
    assert Seqs.Filter(Listings[5..], keep) == [];
  }

  // ---------------------------------------------------------------------------
  // The page
  // ---------------------------------------------------------------------------

  /** The state of the home page: loaded listings, loading flag, search text and type button. */
  datatype HomeState = HomeState(properties: seq<Property>, isLoading: bool, searchQuery: string, filterType: string)

  const InitialHome := HomeState([], true, "", "all")

  /** The load timer fires: the listings arrive and loading ends. */
  function LoadListings(s: HomeState): (r: HomeState)
    ensures r.properties == Listings && !r.isLoading
    ensures r.searchQuery == s.searchQuery && r.filterType == s.filterType
  {
    s.(properties := Listings, isLoading := false)
  }

  /** What the listing section shows: placeholder cards, the card grid, or "No properties found". */
  datatype HomeView = Placeholders | Grid(cards: seq<Property>) | NoResults

  function View(s: HomeState): (v: HomeView)
    ensures s.isLoading <==> v.Placeholders?
    ensures v.Grid? ==> v.cards == FilterProperties(s.properties, s.searchQuery, s.filterType) && v.cards != []
    ensures v.NoResults? <==> !s.isLoading && FilterProperties(s.properties, s.searchQuery, s.filterType) == []
  {
    var shown := FilterProperties(s.properties, s.searchQuery, s.filterType);
    if s.isLoading then Placeholders
    else if |shown| > 0 then Grid(shown)
    else NoResults
  }

  /** Once loaded, the home page with its initial search shows every listing in the grid. */
  lemma FirstViewShowsAll()
    ensures View(InitialHome).Placeholders?
    ensures View(LoadListings(InitialHome)) == Grid(Listings)
  {
    EmptySearchShowsAll(Listings);
  }

}
