/** The ads screen (src/components/admin/AdsManagement.tsx): search over the
    campaign title and restaurant, the status badge and the count in the list
    heading. */
module AdsManagement {
  import opened Lists
  import opened Text
  import opened Ui

  datatype Ad = Ad(id: int, title: string, restaurant: string, status: string)

  predicate MatchesSearch(ad: Ad, term: string) {
    ContainsIgnoringCase(ad.title, term) || ContainsIgnoringCase(ad.restaurant, term)
  }

  function Criteria(term: string): Ad -> bool {
    ad => MatchesSearch(ad, term)
  }

  /** `filteredAds`. */
  function FilteredAds(ads: seq<Ad>, term: string): (r: seq<Ad>)
    ensures IsSubseq(r, ads)
    ensures forall ad :: ad in r <==> ad in ads && MatchesSearch(ad, term)
  {
    FilterFacts(ads, Criteria(term));
    Filter(ads, Criteria(term))
  }

  lemma FilteredAdsIdempotent(ads: seq<Ad>, term: string)
    ensures FilteredAds(FilteredAds(ads, term), term) == FilteredAds(ads, term)
  {
    FilterIdempotent(ads, Criteria(term));
  }

  lemma EmptyTermListsEveryAd(ads: seq<Ad>)
    ensures FilteredAds(ads, "") == ads
  {
    forall i | 0 <= i < |ads| ensures Criteria("")(ads[i]) {
      EmptyTermMatches(ads[i].title);
    }
    FilterKeepsAll(ads, Criteria(""));
  }

  /** The number in `Campanhas Publicitárias (N)`. */
  function HeadingCount(ads: seq<Ad>, term: string): (n: nat)
    ensures n <= |ads|
    ensures term == "" ==> n == |ads|
  {
    if term == "" then EmptyTermListsEveryAd(ads); |FilteredAds(ads, term)|
    else |FilteredAds(ads, term)|
  }

  /** The status badge: default and green for `Ativo`, secondary and yellow otherwise. */
  function StatusBadge(status: string): (b: Badge)
    ensures b.variant == DefaultVariant <==> status == "Ativo"
    ensures b.colour == (if status == "Ativo" then Green else Yellow)
  {
    TwoStateBadge(status == "Ativo", Yellow)
  }
}
