/** The deliverers screen (src/components/admin/DeliverersManagement.tsx):
    search over name and e-mail, the status badge, and the summary cards
    computed over the whole fetched list. */
module DeliverersManagement {
  import opened Wrappers
  import opened Lists
  import opened Text
  import opened Ui

  datatype Deliverer = Deliverer(id: int, name: string, email: string, status: string, deliveries: Option<int>)

  /** The average-performance card: the literal `'0.0'` for an empty list,
      otherwise the mean rating of `count` deliverers (a floating-point value
      this model does not compute). */
  datatype AveragePerformance = ZeroText | MeanOf(count: nat)

  datatype Stats = Stats(total: nat, active: nat, average: AveragePerformance, deliveriesToday: int)

  predicate MatchesSearch(d: Deliverer, term: string) {
    ContainsIgnoringCase(d.name, term) || ContainsIgnoringCase(d.email, term)
  }

  function Criteria(term: string): Deliverer -> bool {
    d => MatchesSearch(d, term)
  }

  /** `filteredDeliverers`. */
  function FilteredDeliverers(deliverers: seq<Deliverer>, term: string): (r: seq<Deliverer>)
    ensures IsSubseq(r, deliverers)
    ensures forall d :: d in r <==> d in deliverers && MatchesSearch(d, term)
  {
    FilterFacts(deliverers, Criteria(term));
    Filter(deliverers, Criteria(term))
  }

  lemma FilteredDeliverersIdempotent(deliverers: seq<Deliverer>, term: string)
    ensures FilteredDeliverers(FilteredDeliverers(deliverers, term), term) == FilteredDeliverers(deliverers, term)
  {
    FilterIdempotent(deliverers, Criteria(term));
  }

  function IsActive(d: Deliverer): bool {
    d.status == "Ativo"
  }

  /** `d.deliveries || 0`. */
  function DeliveriesOf(d: Deliverer): int {
    d.deliveries.GetOr(0)
  }

  /** The summary cards. They take the full fetched list and no search term,
      so typing in the search box never changes them. */
  function DelivererStats(deliverers: seq<Deliverer>): (s: Stats)
    ensures s.total == |deliverers|
    ensures s.active <= s.total
    ensures s.average == ZeroText <==> deliverers == []
  {
    Stats(|deliverers|, |Filter(deliverers, IsActive)|,
          if |deliverers| > 0 then MeanOf(|deliverers|) else ZeroText,
          Sum(deliverers, DeliveriesOf))
  }

  /** `active` counts exactly the deliverers whose status is `Ativo`. */
  lemma ActiveCountsAtivo(deliverers: seq<Deliverer>)
    ensures forall d :: d in Filter(deliverers, IsActive) <==> d in deliverers && d.status == "Ativo"
    ensures DelivererStats(deliverers).active == |deliverers| <==> forall i :: 0 <= i < |deliverers| ==> deliverers[i].status == "Ativo"
  {
    FilterFacts(deliverers, IsActive);
    if forall i :: 0 <= i < |deliverers| ==> deliverers[i].status == "Ativo" {
      FilterKeepsAll(deliverers, IsActive);
    } else {
      var i :| 0 <= i < |deliverers| && deliverers[i].status != "Ativo";
      FilterShrinks(deliverers, IsActive, i);
    }
  }

  function HasCount(d: Deliverer): bool {
    d.deliveries.Some?
  }

  /** `deliveriesToday` adds up the counts that are present: deliverers without
      a count contribute nothing. */
  lemma {:induction false} DeliveriesTodayIgnoresMissing(deliverers: seq<Deliverer>)
    ensures DelivererStats(deliverers).deliveriesToday == Sum(Filter(deliverers, HasCount), DeliveriesOf)
    decreases |deliverers|
  {
    if deliverers != [] {
      DeliveriesTodayIgnoresMissing(deliverers[1..]);
      var rest := Filter(deliverers[1..], HasCount);
      if HasCount(deliverers[0]) {
        assert Filter(deliverers, HasCount) == [deliverers[0]] + rest;
        assert ([deliverers[0]] + rest)[1..] == rest;
      }
    }
  }

  /** The status badge: default and green for `Ativo`, secondary and red otherwise. */
  function StatusBadge(status: string): (b: Badge)
    ensures b.variant == DefaultVariant <==> status == "Ativo"
    ensures b.colour == Green <==> status == "Ativo"
    ensures b.colour == Green || b.colour == Red
  {
    TwoStateBadge(status == "Ativo", Red)
  }
}
