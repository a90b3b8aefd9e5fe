/** The marketplace page (src/components/Customer/BrowseVendors.tsx): the approved businesses,
    fetched in name order, narrowed by the search box. The category select is kept in the
    page's state but never consulted. */
module BrowseVendors {
  import opened Wrappers
  import opened Text
  import opened Schema
  import opened Folds

  /** `fetchBusinesses`: an error is logged and the list stays as it was; otherwise the rows
      replace it (`data || []`). */
  function BusinessesAfterFetch(current: seq<Business>, reply: Result<Option<seq<Business>>, string>): (r: seq<Business>)
    ensures reply.Failure? ==> r == current
    ensures reply.Success? ==> r == if reply.value.Some? then reply.value.value else []
  {
    if reply.Failure? then current
    else if reply.value.Some? then reply.value.value
    else []
  }

  /** The name matches, or the description is present and matches. */
  predicate MatchesVendorSearch(b: Business, term: string) {
    MatchesSearch(b.businessName, term)
      || (b.businessDescription.Some? && MatchesSearch(b.businessDescription.value, term))
  }

  /** `filteredBusinesses`; `selectedCategory` is a parameter only to show that it plays no
      part. */
  function FilteredBusinesses(businesses: seq<Business>, term: string, selectedCategory: string): (r: seq<Business>)
    ensures forall b :: b in r <==> b in businesses && MatchesVendorSearch(b, term)
  {
    Filter(businesses, (b: Business) => MatchesVendorSearch(b, term))
  }

  /** The selected category does not change the list. */
  lemma CategoryIgnored(businesses: seq<Business>, term: string, one: string, other: string)
    ensures FilteredBusinesses(businesses, term, one) == FilteredBusinesses(businesses, term, other)
  {}

  /** An empty search lists every fetched business, in the fetched order. */
  lemma EmptySearchListsAll(businesses: seq<Business>, selectedCategory: string)
    ensures FilteredBusinesses(businesses, "", selectedCategory) == businesses
  {
    forall b | b in businesses ensures MatchesVendorSearch(b, "") {
      EmptySearchMatches(b.businessName);
    }
    FilterAll(businesses, (b: Business) => MatchesVendorSearch(b, ""));
  }

  /** Two listed businesses keep their fetched order. */
  lemma ListedInFetchedOrder(businesses: seq<Business>, term: string, selectedCategory: string, i: int, j: int)
    requires 0 <= i < j < |businesses|
    requires MatchesVendorSearch(businesses[i], term) && MatchesVendorSearch(businesses[j], term)
    ensures exists a, b ::
      && 0 <= a < b < |FilteredBusinesses(businesses, term, selectedCategory)|
      && FilteredBusinesses(businesses, term, selectedCategory)[a] == businesses[i]
      && FilteredBusinesses(businesses, term, selectedCategory)[b] == businesses[j]
  {
    var qa, qb := FilterKeepsOrder(businesses, (b: Business) => MatchesVendorSearch(b, term), i, j);
    assert FilteredBusinesses(businesses, term, selectedCategory)
        == Filter(businesses, (b: Business) => MatchesVendorSearch(b, term));
  }

  /** A business whose name contains the term in another letter case is still listed. */
  lemma CaseIgnored(businesses: seq<Business>, k: int, term: string, selectedCategory: string)
    requires 0 <= k < |businesses|
    requires Contains(ToLower(businesses[k].businessName), ToLower(term))
    ensures businesses[k] in FilteredBusinesses(businesses, ToUpper(term), selectedCategory)
  {
    LowerOfUpper(term);
  }
}
