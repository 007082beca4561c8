/**
 * The neighbourhood guide (`LocalityInsights`).
 *
 * A search box narrows the list of neighbourhood cards to those whose name
 * contains the search text, ignoring case; clicking a card selects it for the
 * detailed panel. Each card shows three score rings whose colour class comes
 * from `ScoreIndicator`'s `getColor`.
 */
module Locality {
  import opened Wrappers
  import opened Text
  import Seqs

  datatype Neighborhood = Neighborhood(id: nat, name: string)

  /** The neighbourhoods of the guide, in display order. */
  const Neighborhoods: seq<Neighborhood> := [
    Neighborhood(1, "Downtown Heights"),
    Neighborhood(2, "Riverside Community"),
    Neighborhood(3, "Tech Village")]

  // ---------------------------------------------------------------------------
  // Search
  // ---------------------------------------------------------------------------

  predicate NameMatches(n: Neighborhood, term: string): (r: bool)
    ensures r ==> |term| <= |n.name|
    ensures term == "" ==> r
  {
    assert ToLower("") == "";
    Includes(ToLower(n.name), ToLower(term))
  }

  function NameTest(term: string): Neighborhood -> bool {
    n => NameMatches(n, term)
  }

  /** `filteredNeighborhoods` */
  function FilterNeighborhoods(ns: seq<Neighborhood>, term: string): (r: seq<Neighborhood>)
    ensures forall n :: n in r <==> n in ns && NameMatches(n, term)
    ensures Seqs.IsSubsequence(r, ns)
  {
    Seqs.FilterIsSubsequence(ns, NameTest(term));
    Seqs.Filter(ns, NameTest(term))
  }

  /** An empty search box shows every neighbourhood. */
  lemma EmptyTermShowsAll(ns: seq<Neighborhood>)
    ensures FilterNeighborhoods(ns, "") == ns
  {
    Seqs.FilterAllKept(ns, NameTest(""));
  }

  /** A shown card appears as often as in the guide; a hidden one not at all. */
  lemma FilterNeighborhoodsCounts(ns: seq<Neighborhood>, term: string)
    ensures forall n :: multiset(FilterNeighborhoods(ns, term))[n] ==
              if NameMatches(n, term) then multiset(ns)[n] else 0
  {
    Seqs.FilterCount(ns, NameTest(term));
  }

  /** Searching the shown cards again with the same text shows the same cards. */
  lemma FilterNeighborhoodsIdempotent(ns: seq<Neighborhood>, term: string)
    ensures FilterNeighborhoods(FilterNeighborhoods(ns, term), term) == FilterNeighborhoods(ns, term)
  {
    Seqs.FilterIdempotent(ns, NameTest(term));
  }

  /** Search texts that differ only in ASCII case show the same cards. */
  lemma FilterNeighborhoodsIgnoresCase(ns: seq<Neighborhood>, term: string, term': string)
    requires SameIgnoringCase(term, term')
    ensures FilterNeighborhoods(ns, term) == FilterNeighborhoods(ns, term')
  {
    ToLowerEqualIff(term, term');
    Seqs.FilterCongruent(ns, NameTest(term), NameTest(term'));
  }

  // ---------------------------------------------------------------------------
  // The page
  // ---------------------------------------------------------------------------

  /** The selected neighbourhood and the search text. */
  datatype LocalityState = LocalityState(selected: Neighborhood, searchTerm: string)

  const InitialLocality := LocalityState(Neighborhoods[0], "")

  /** Typing into the search box: the selection is kept whatever is typed. */
  function SetSearchTerm(s: LocalityState, term: string): (r: LocalityState)
    ensures r.selected == s.selected && r.searchTerm == term
  {
    s.(searchTerm := term)
  }

  /** A click on a card: only a card that is shown can be clicked. */
  function Select(s: LocalityState, n: Neighborhood): (r: LocalityState)
    requires n in FilterNeighborhoods(Neighborhoods, s.searchTerm)
    ensures r.selected == n && r.searchTerm == s.searchTerm
  {
    s.(selected := n)
  }

  function Visible(s: LocalityState): seq<Neighborhood> {
    FilterNeighborhoods(Neighborhoods, s.searchTerm)
  }

  /**
   * The detailed panel can show a neighbourhood whose card the search has
   * hidden: searching for another neighbourhood's full name keeps the first
   * one selected while its card disappears.
   */
  lemma SelectionMayBeHidden()
    ensures var s := SetSearchTerm(InitialLocality, "Riverside Community");
            s.selected == Neighborhoods[0] && s.selected !in Visible(s)
  {
    assert !NameMatches(Neighborhoods[0], "Riverside Community");
  }

  // ---------------------------------------------------------------------------
  // Score colours
  // ---------------------------------------------------------------------------

  /** `getColor()` of a score ring; `None` is an absent `color` prop, which defaults to "primary". */
  function ScoreColor(color: Option<string>): (c: string)
    ensures c == "bg-primary" || c == "bg-secondary" || c == "bg-green-500"
    ensures c == "bg-secondary" <==> color == Some("secondary")
    ensures c == "bg-green-500" <==> color == Some("green")
  {
    var name := match color case None => "primary" case Some(v) => v;
    if name == "primary" then "bg-primary"
    else if name == "secondary" then "bg-secondary"
    else if name == "green" then "bg-green-500"
    else "bg-primary"
  }

  /** The three rings of a card: safety in the default colour, amenities secondary, transit green. */
  lemma CardRingColors()
    ensures ScoreColor(None) == "bg-primary"
    ensures ScoreColor(Some("secondary")) == "bg-secondary"
    ensures ScoreColor(Some("green")) == "bg-green-500"
    ensures ScoreColor(Some("blue")) == "bg-primary"
  {
  }

}
