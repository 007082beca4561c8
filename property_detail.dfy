/**
 * The detail page of one listing (`PropertyDetail`).
 *
 * When its load timer fires, the page looks the route's id up in the listings
 * (the first listing whose id prints as the route text), and when one is found
 * it keeps it together with up to three "similar" listings: other listings of
 * the same type or in the same location, in catalog order. Loading ends whether
 * or not a listing was found.
 */
module PropertyDetail {
  import opened Wrappers
  import opened Numbers
  import opened Catalog
  import Seqs

  // ---------------------------------------------------------------------------
  // Lookup by route id
  // ---------------------------------------------------------------------------

  /** `p.id.toString() === id` */
  predicate HasRouteId(p: Property, route: string) {
    NatToString(p.id) == route
  }

  /** Index of the first listing from `i` on whose id prints as `route`. */
  function FindFrom(ps: seq<Property>, route: string, i: nat): (r: Option<nat>)
    requires i <= |ps|
    ensures r.Some? ==> i <= r.value < |ps| && HasRouteId(ps[r.value], route)
    ensures r.Some? ==> forall j :: i <= j < r.value ==> !HasRouteId(ps[j], route)
    ensures r.None? ==> forall j :: i <= j < |ps| ==> !HasRouteId(ps[j], route)
    decreases |ps| - i
  {
    if i == |ps| then None
    else if HasRouteId(ps[i], route) then Some(i)
    else FindFrom(ps, route, i + 1)
  }

  /** `dummyProperties.find(p => p.id.toString() === id)`; `None` is `undefined`. */
  function FindById(ps: seq<Property>, route: string): (r: Option<Property>)
    ensures r.Some? ==> exists k | 0 <= k < |ps| :: ps[k] == r.value && FirstWithId(ps, route, k)
    ensures r.None? <==> forall j :: 0 <= j < |ps| ==> !HasRouteId(ps[j], route)
  {
    match FindFrom(ps, route, 0)
    case None => None
    case Some(k) =>
      assert FirstWithId(ps, route, k);
      Some(ps[k])
  }

  /** `ps[k]` is the first listing whose id prints as `route`. */
  predicate FirstWithId(ps: seq<Property>, route: string, k: nat) {
    && k < |ps| && HasRouteId(ps[k], route)
    && forall j :: 0 <= j < k ==> !HasRouteId(ps[j], route)
  }

  /**
   * A route with a superfluous leading zero ("01"), an empty route or one with
   * a character other than a digit finds nothing, whatever the listings.
   */
  lemma NonCanonicalRouteNotFound(ps: seq<Property>, route: string)
    requires !IsCanonical(route)
    ensures FindById(ps, route) == None
  {
    forall j | 0 <= j < |ps| ensures !HasRouteId(ps[j], route) {
      NatToStringCanonical(ps[j].id);
    }
  }

  /** Every listing is found by its own printed id, when ids are distinct. */
  lemma FindOwnId(ps: seq<Property>, k: nat)
    requires k < |ps|
    requires forall i, j :: 0 <= i < j < |ps| ==> ps[i].id != ps[j].id
    ensures FindById(ps, NatToString(ps[k].id)) == Some(ps[k])
  {
    var route := NatToString(ps[k].id);
    var r := FindById(ps, route);
    assert HasRouteId(ps[k], route);
    var m :| 0 <= m < |ps| && ps[m] == r.value && FirstWithId(ps, route, m);
    NatToStringInjective(ps[m].id, ps[k].id);
  }

  // ---------------------------------------------------------------------------
  // Similar listings
  // ---------------------------------------------------------------------------

  /** Another listing of the same type or in the same location as `found`. */
  predicate IsSimilar(found: Property, p: Property): (r: bool)
    ensures r ==> p != found
    ensures p.id != found.id && p.location == found.location ==> r
  {
    p.id != found.id && (p.propertyType == found.propertyType || p.location == found.location)
  }

  function SimilarTest(found: Property): Property -> bool {
    p => IsSimilar(found, p)
  }

  /** `ps.filter(...)`: every similar listing, in catalog order. */
  function AllSimilar(ps: seq<Property>, found: Property): (r: seq<Property>)
    ensures forall p :: p in r <==> p in ps && IsSimilar(found, p)
  {
    Seqs.Filter(ps, SimilarTest(found))
  }

  /** `ps.filter(...).slice(0, 3)` */
  function Similar(ps: seq<Property>, found: Property): (r: seq<Property>)
    ensures |r| == if |AllSimilar(ps, found)| < 3 then |AllSimilar(ps, found)| else 3
    ensures r == AllSimilar(ps, found)[..|r|]
    ensures forall i :: 0 <= i < |r| ==> r[i] in ps && r[i].id != found.id
    ensures forall i :: 0 <= i < |r| ==>
              r[i].propertyType == found.propertyType || r[i].location == found.location
  {
    var all := AllSimilar(ps, found);
    var r := if |all| <= 3 then all else all[..3];
    assert forall i :: 0 <= i < |r| ==> r[i] == all[i] && all[i] in all;
    r
  }

  /** The similar listings appear in the catalog in the same order. */
  lemma SimilarInCatalogOrder(ps: seq<Property>, found: Property)
    ensures Seqs.IsSubsequence(Similar(ps, found), ps)
  {
    var all := AllSimilar(ps, found);
    Seqs.FilterIsSubsequence(ps, SimilarTest(found));
    PrefixOfSubsequence(all, Similar(ps, found), ps);
  }

  lemma {:induction false} PrefixOfSubsequence(sub: seq<Property>, pre: seq<Property>, xs: seq<Property>)
    requires Seqs.IsSubsequence(sub, xs) && |pre| <= |sub| && pre == sub[..|pre|]
    ensures Seqs.IsSubsequence(pre, xs)
    decreases |xs|
  {
    if pre != [] {
      if sub[0] == xs[0] && Seqs.IsSubsequence(sub[1..], xs[1..]) {
        PrefixOfSubsequence(sub[1..], pre[1..], xs[1..]);
      } else {
        PrefixOfSubsequence(sub, pre, xs[1..]);
      }
    }
  }

  // ---------------------------------------------------------------------------
  // The page
  // ---------------------------------------------------------------------------

  /** The page state: the listing found (`null` as `None`), the loading flag and the similar listings. */
  datatype DetailState = DetailState(property: Option<Property>, loading: bool, similar: seq<Property>)

  const InitialDetail := DetailState(None, true, [])

  /**
   * The load timer fires for route `route`. When no listing has that id the
   * listing and the similar list are left as they were.
   */
  function OnLoaded(s: DetailState, ps: seq<Property>, route: string): (r: DetailState)
    ensures !r.loading
    ensures FindById(ps, route).Some? ==>
              r.property == FindById(ps, route) && r.similar == Similar(ps, FindById(ps, route).value)
    ensures FindById(ps, route).None? ==> r.property == s.property && r.similar == s.similar
  {
    match FindById(ps, route)
    case Some(p) => DetailState(Some(p), false, Similar(ps, p))
    case None => s.(loading := false)
  }

  /** What the page renders: the placeholder, "Property Not Found", or the listing. */
  datatype DetailView = Placeholder | NotFound | Details(p: Property, similar: seq<Property>)

  function View(s: DetailState): (v: DetailView)
    ensures s.loading <==> v.Placeholder?
    ensures v.NotFound? <==> !s.loading && s.property.None?
    ensures v.Details? ==> s.property == Some(v.p) && v.similar == s.similar
  {
    if s.loading then Placeholder
    else match s.property
      case None => NotFound
      case Some(p) => Details(p, s.similar)
  }

  /** Opened on an id that no listing has, the page ends on "Property Not Found" with no similar listings. */
  lemma UnknownIdShowsNotFound(ps: seq<Property>, route: string)
    requires FindById(ps, route).None?
    ensures View(OnLoaded(InitialDetail, ps, route)) == NotFound
    ensures OnLoaded(InitialDetail, ps, route).similar == []
  {
  }

  /** The villa of route "1" is shown with the two other houses as similar listings. */
  lemma VillaExample()
    ensures FindById(Listings, "1") == Some(Listings[0])
    ensures Similar(Listings, Listings[0]) == [Listings[2], Listings[4]]
  {
    FindOwnIdInListings();
    VillaSimilar();
  }

  lemma VillaSimilar()
    ensures AllSimilar(Listings, Listings[0]) == [Listings[2], Listings[4]]
  {
    var keep := SimilarTest(Listings[0]);
    VillaTests();
    VillaTail(keep);
    assert Seqs.Filter(Listings[2..], keep) == [Listings[2], Listings[4]];
    assert Seqs.Filter(Listings[1..], keep) == [Listings[2], Listings[4]];
  }

  /** Which listings count as similar to the villa. */
  lemma VillaTests()
    ensures var keep := SimilarTest(Listings[0]);
            !keep(Listings[0]) && !keep(Listings[1]) && keep(Listings[2]) &&
            !keep(Listings[3]) && keep(Listings[4]) && !keep(Listings[5])
  {
  }

  lemma VillaTail(keep: Property -> bool)
    requires !keep(Listings[3]) && keep(Listings[4]) && !keep(Listings[5])
    ensures Seqs.Filter(Listings[3..], keep) == [Listings[4]]
  {
    assert Seqs.Filter(Listings[5..], keep) == [];
    assert Seqs.Filter(Listings[4..], keep) == [Listings[4]];
  }

  lemma FindOwnIdInListings()
    ensures FindById(Listings, "1") == Some(Listings[0])
  {
    assert NatToString(Listings[0].id) == "1";
    FindOwnId(Listings, 0);
  }

}
