/** The restaurants screen (src/components/admin/RestaurantsManagement.tsx):
    the search and status filter over the fetched list, the normalisation of
    the fetch result, and the status toggle with its refetch. The HTTP
    exchanges are parameters: a method runs where the source resumes after an
    `await`. */
module RestaurantsManagement {
  import opened Wrappers
  import opened Lists
  import opened Text
  import opened Ui

  /** A list record; any text field may be absent from the JSON. */
  datatype Restaurant = Restaurant(id: int, name: Option<string>, city: Option<string>,
                                   category: Option<string>, status: Option<string>)

  /** The value held as the restaurant list: an array, or anything else. */
  datatype Listing = Array(items: seq<Restaurant>) | NotArray

  /** The body of a `GET /restaurants` response. */
  datatype Body = JsonArray(items: seq<Restaurant>) | OtherJson | NotJson

  /** How `fetch('/restaurants')` ended. */
  datatype FetchOutcome = NetworkError | Response(ok: bool, body: Body)

  /** The body of the PATCH response as `response.json()` reads it: `null`,
      any other JSON value, or text that is not JSON (the read throws). */
  datatype ToggleBody = NullJson | JsonValue | Unparsable

  /** How the `PATCH /restaurants/{id}/status` exchange ended. */
  datatype ToggleOutcome = ToggleNetworkError | ToggleResponse(ok: bool, body: ToggleBody)

  /** Whether the toggle reaches `fetchRestaurants()`: the answer is ok and
      its body reads as JSON other than `null`, so that `result.message`
      does not throw. */
  predicate Refetches(outcome: ToggleOutcome) {
    outcome.ToggleResponse? && outcome.ok && outcome.body.JsonValue?
  }

  /** The body of the status PATCH. */
  datatype StatusRequest = StatusRequest(id: int, status: string)

  /** `field?.toLowerCase().includes(term.toLowerCase())`: an absent field
      never matches, not even the empty term. */
  predicate FieldMatches(field: Option<string>, term: string) {
    field.Some? && ContainsIgnoringCase(field.value, term)
  }

  predicate MatchesSearch(r: Restaurant, term: string) {
    FieldMatches(r.name, term) || FieldMatches(r.city, term) || FieldMatches(r.category, term)
  }

  /** `'all'` passes every record; `'active'` needs status `ativo` in any
      case; any other filter value needs `inativo` in any case. */
  predicate MatchesStatus(r: Restaurant, statusFilter: string) {
    statusFilter == "all"
    || (r.status.Some? && Lower(r.status.value) == (if statusFilter == "active" then "ativo" else "inativo"))
  }

  function Criteria(term: string, statusFilter: string): Restaurant -> bool {
    r => MatchesSearch(r, term) && MatchesStatus(r, statusFilter)
  }

  /** `filteredRestaurants`: nothing when the list is not an array, otherwise
      the records that match both the search and the status filter, in order. */
  function FilteredRestaurants(restaurants: Listing, term: string, statusFilter: string): (r: seq<Restaurant>)
    ensures restaurants.NotArray? ==> r == []
    ensures restaurants.Array? ==> IsSubseq(r, restaurants.items)
    ensures restaurants.Array? ==> forall x :: x in r <==>
              x in restaurants.items && MatchesSearch(x, term) && MatchesStatus(x, statusFilter)
  {
    match restaurants
    case NotArray => []
    case Array(items) =>
      FilterFacts(items, Criteria(term, statusFilter));
      Filter(items, Criteria(term, statusFilter))
  }

  /** Filtering the filtered list again with the same inputs changes nothing. */
  lemma FilteredRestaurantsIdempotent(restaurants: Listing, term: string, statusFilter: string)
    ensures var once := FilteredRestaurants(restaurants, term, statusFilter);
            FilteredRestaurants(Array(once), term, statusFilter) == once
  {
    if restaurants.Array? {
      FilterIdempotent(restaurants.items, Criteria(term, statusFilter));
    }
  }

  /** Two records, one `Ativo` and one `Inativo`: the `active` filter with an
      empty search keeps exactly the first. */
  lemma ActiveFilterScenario()
    ensures var a := Restaurant(1, Some("A"), None, None, Some("Ativo"));
            var b := Restaurant(2, Some("B"), None, None, Some("Inativo"));
            FilteredRestaurants(Array([a, b]), "", "active") == [a]
  {
    var a := Restaurant(1, Some("A"), None, None, Some("Ativo"));
    var b := Restaurant(2, Some("B"), None, None, Some("Inativo"));
    EmptyTermMatches("A");
    assert Lower("Ativo") == "ativo";
    assert Lower("Inativo") == "inativo";
    assert [a, b][1..] == [b];
  }

  /** What `fetchRestaurants` stores: the array body of an ok response, and
      the empty list after a network error, an error status, a body that is
      not JSON or JSON that is not an array. */
  function LoadedList(outcome: FetchOutcome): (r: seq<Restaurant>)
    ensures r != [] ==> outcome == Response(true, JsonArray(r))
    ensures outcome.Response? && outcome.ok && outcome.body.JsonArray? ==> r == outcome.body.items
  {
    match outcome
    case Response(true, JsonArray(items)) => items
    case _ => []
  }

  /** `restaurant.status === 'Ativo' ? 'inactive' : 'active'`. */
  function NewStatusFor(status: Option<string>): (s: string)
    ensures s == "inactive" <==> status == Some("Ativo")
    ensures s == "inactive" || s == "active"
  {
    if status == Some("Ativo") then "inactive" else "active"
  }

  /** `getStatusText`. An absent status reads `Inativo`. */
  function StatusText(status: Option<string>): (t: string)
    ensures t == "Ativo" <==> status == Some("Ativo")
    ensures t == "Ativo" || t == "Inativo"
  {
    if status == Some("Ativo") then "Ativo" else "Inativo"
  }

  /** `getStatusColor`: green exactly for `Ativo`, red otherwise. */
  function StatusColour(status: Option<string>): (c: Colour)
    ensures c == Green <==> status == Some("Ativo")
    ensures c == Green || c == Red
  {
    if status == Some("Ativo") then Green else Red
  }

  /** The toggle button's title. */
  function ToggleTitle(status: Option<string>): (t: string)
    ensures t == "Desativar" <==> status == Some("Ativo")
    ensures t == "Desativar" || t == "Ativar"
  {
    if status == Some("Ativo") then "Desativar" else "Ativar"
  }

  /** The toggle asks for the opposite of what the row shows: a row shown as
      `Ativo`, titled `Desativar`, asks for `inactive`; every other row asks
      for `active`. */
  lemma ToggleAsksForTheOtherStatus(status: Option<string>)
    ensures NewStatusFor(status) == "inactive" <==> StatusText(status) == "Ativo"
    ensures NewStatusFor(status) == "inactive" <==> ToggleTitle(status) == "Desativar"
    ensures NewStatusFor(status) == "active" <==> StatusText(status) == "Inativo"
  {
  }

  /** The PATCH request of `handleToggleStatus`. */
  function ToggleRequest(r: Restaurant): (req: StatusRequest)
    ensures req.id == r.id
    ensures req.status == "inactive" <==> r.status == Some("Ativo")
  {
    StatusRequest(r.id, NewStatusFor(r.status))
  }

  /** The screen's list state. */
  class RestaurantsScreen {
    var restaurants: seq<Restaurant>
    var loading: bool

    /** `useState([])` and `useState(true)`. */
    constructor ()
      ensures restaurants == [] && loading
    {
      restaurants := [];
      loading := true;
    }

    /** The rows on screen for the current search and status filter. */
    function Visible(term: string, statusFilter: string): (r: seq<Restaurant>)
      reads this
      ensures IsSubseq(r, restaurants)
    {
      FilteredRestaurants(Array(restaurants), term, statusFilter)
    }

    /** `fetchRestaurants` up to its `await`: the loading flag is raised and
        the list is kept. */
    method BeginFetch()
      modifies this
      ensures loading
      ensures restaurants == old(restaurants)
    {
      loading := true;
    }

    /** `fetchRestaurants` after the exchange: the list is replaced by what
        was loaded (empty on any failure) and loading ends whatever happened. */
    method FetchAnswered(outcome: FetchOutcome)
      modifies this
      ensures restaurants == LoadedList(outcome)
      ensures !loading
    {
      match outcome {
        case Response(ok, body) =>
          if ok && body.JsonArray? {
            restaurants := body.items;
          } else {
            restaurants := [];
          }
        case NetworkError =>
          restaurants := [];
      }
      loading := false;
    }

    /** `handleToggleStatus` after the PATCH: an ok response whose body reads
        as a non-null JSON value starts a refetch (which raises the loading
        flag); an error response, a body that cannot be read or is `null`, or
        a network failure leaves the list and the flag as they were. */
    method ToggleAnswered(outcome: ToggleOutcome) returns (refetching: bool)
      modifies this
      ensures refetching <==> Refetches(outcome)
      ensures restaurants == old(restaurants)
      ensures loading == (refetching || old(loading))
    {
      refetching := false;
      match outcome {
        case ToggleResponse(ok, body) =>
          if ok && body == JsonValue {
            refetching := true;
          }
        case ToggleNetworkError =>
      }
      if refetching {
        BeginFetch();
      }
    }
  }
}
