/** The promotions screen (src/components/admin/PromotionsManagement.tsx):
    search over the promotion name and code, the status badge and the count in
    the list heading. */
module PromotionsManagement {
  import opened Lists
  import opened Text
  import opened Ui

  datatype Promotion = Promotion(id: int, name: string, code: string, status: string)

  predicate MatchesSearch(promotion: Promotion, term: string) {
    ContainsIgnoringCase(promotion.name, term) || ContainsIgnoringCase(promotion.code, term)
  }

  function Criteria(term: string): Promotion -> bool {
    promotion => MatchesSearch(promotion, term)
  }

  /** `filteredPromotions`. */
  function FilteredPromotions(promotions: seq<Promotion>, term: string): (r: seq<Promotion>)
    ensures IsSubseq(r, promotions)
    ensures forall promotion :: promotion in r <==> promotion in promotions && MatchesSearch(promotion, term)
  {
    FilterFacts(promotions, Criteria(term));
    Filter(promotions, Criteria(term))
  }

  lemma FilteredPromotionsIdempotent(promotions: seq<Promotion>, term: string)
    ensures FilteredPromotions(FilteredPromotions(promotions, term), term) == FilteredPromotions(promotions, term)
  {
    FilterIdempotent(promotions, Criteria(term));
  }

  lemma EmptyTermListsEveryPromotion(promotions: seq<Promotion>)
    ensures FilteredPromotions(promotions, "") == promotions
  {
    forall i | 0 <= i < |promotions| ensures Criteria("")(promotions[i]) {
      EmptyTermMatches(promotions[i].name);
    }
    FilterKeepsAll(promotions, Criteria(""));
  }

  /** The number in `Lista de Promoções (N)`. */
  function HeadingCount(promotions: seq<Promotion>, term: string): (n: nat)
    ensures n <= |promotions|
    ensures term == "" ==> n == |promotions|
  {
    if term == "" then EmptyTermListsEveryPromotion(promotions); |FilteredPromotions(promotions, term)|
    else |FilteredPromotions(promotions, term)|
  }

  /** The status badge: default and green for `Ativo`, secondary and yellow otherwise. */
  function StatusBadge(status: string): (b: Badge)
    ensures b.variant == DefaultVariant <==> status == "Ativo"
    ensures b.colour == (if status == "Ativo" then Green else Yellow)
  {
    TwoStateBadge(status == "Ativo", Yellow)
  }
}
