/** The orders screen (src/components/admin/OrdersManagement.tsx): the search
    and status filter over the fetched orders and the status lookups of its
    status column. */
module OrdersManagement {
  import opened Lists
  import opened Text
  import opened Numbers
  import opened Ui

  datatype Order = Order(id: int, customer: string, restaurant: string, status: string)

  /** The statuses the lookups know; any other status is shown as it is. */
  const KnownStatuses: set<string> := {"entregue", "em_preparo", "pendente"}

  /** Customer or restaurant contains the term ignoring case, or the id's
      decimal text contains the term exactly as typed. */
  predicate MatchesSearch(o: Order, term: string) {
    ContainsIgnoringCase(o.customer, term) || ContainsIgnoringCase(o.restaurant, term)
    || IsInfix(term, DecimalString(o.id))
  }

  /** `'all'` passes every order; any other filter value needs that exact status. */
  predicate MatchesStatus(o: Order, statusFilter: string) {
    statusFilter == "all" || o.status == statusFilter
  }

  function Criteria(term: string, statusFilter: string): Order -> bool {
    o => MatchesSearch(o, term) && MatchesStatus(o, statusFilter)
  }

  /** `filteredOrders`. */
  function FilteredOrders(orders: seq<Order>, term: string, statusFilter: string): (r: seq<Order>)
    ensures IsSubseq(r, orders)
    ensures forall o :: o in r <==> o in orders && MatchesSearch(o, term) && MatchesStatus(o, statusFilter)
  {
    FilterFacts(orders, Criteria(term, statusFilter));
    Filter(orders, Criteria(term, statusFilter))
  }

  lemma FilteredOrdersIdempotent(orders: seq<Order>, term: string, statusFilter: string)
    ensures FilteredOrders(FilteredOrders(orders, term, statusFilter), term, statusFilter)
         == FilteredOrders(orders, term, statusFilter)
  {
    FilterIdempotent(orders, Criteria(term, statusFilter));
  }

  /** With an empty search box and the `'all'` filter every order is listed. */
  lemma NoCriteriaListsEveryOrder(orders: seq<Order>)
    ensures FilteredOrders(orders, "", "all") == orders
  {
    forall i | 0 <= i < |orders| ensures Criteria("", "all")(orders[i]) {
      EmptyTermMatches(orders[i].customer);
    }
    FilterKeepsAll(orders, Criteria("", "all"));
  }

  /** `getStatusText`: a label for each known status, any other status verbatim. */
  function StatusText(status: string): (r: string)
    ensures status !in KnownStatuses <==> r == status
    ensures status == "entregue" ==> r == "Entregue"
    ensures status == "em_preparo" ==> r == "Em Preparo"
    ensures status == "pendente" ==> r == "Pendente"
  {
    match status
    case "entregue" => "Entregue"
    case "em_preparo" => "Em Preparo"
    case "pendente" => "Pendente"
    case _ => status
  }

  /** `getStatusColor`: green, yellow and red for the known statuses, grey
      for anything else. */
  function StatusColour(status: string): (r: Colour)
    ensures r == Grey <==> status !in KnownStatuses
    ensures r == Green <==> status == "entregue"
    ensures r == Yellow <==> status == "em_preparo"
    ensures r == Red <==> status == "pendente"
  {
    match status
    case "entregue" => Green
    case "em_preparo" => Yellow
    case "pendente" => Red
    case _ => Grey
  }
}
