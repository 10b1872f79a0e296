/** The users screen (src/components/admin/UsersManagement.tsx): search over
    name, e-mail and phone, the active/banned status filter, the status pill and
    the choice of action button. */
module UsersManagement {
  import opened Wrappers
  import opened Lists
  import opened Text
  import opened Ui

  datatype User = User(id: int, name: string, email: string, phone: Option<string>, status: string)

  datatype Action = Ban | Reactivate

  /** Name, e-mail or phone contains the term ignoring case; a missing phone
      is searched as `''`. */
  predicate MatchesSearch(u: User, term: string) {
    ContainsIgnoringCase(u.name, term) || ContainsIgnoringCase(u.email, term)
    || ContainsIgnoringCase(u.phone.GetOr(""), term)
  }

  /** `'all'` passes everyone; `'active'` needs status `ativo` in any case;
      every other filter value needs `banido` in any case. */
  predicate MatchesStatus(u: User, statusFilter: string) {
    statusFilter == "all" || Lower(u.status) == (if statusFilter == "active" then "ativo" else "banido")
  }

  function Criteria(term: string, statusFilter: string): User -> bool {
    u => MatchesSearch(u, term) && MatchesStatus(u, statusFilter)
  }

  /** `filteredUsers`. */
  function FilteredUsers(users: seq<User>, term: string, statusFilter: string): (r: seq<User>)
    ensures IsSubseq(r, users)
    ensures forall u :: u in r <==> u in users && MatchesSearch(u, term) && MatchesStatus(u, statusFilter)
  {
    FilterFacts(users, Criteria(term, statusFilter));
    Filter(users, Criteria(term, statusFilter))
  }

  lemma FilteredUsersIdempotent(users: seq<User>, term: string, statusFilter: string)
    ensures FilteredUsers(FilteredUsers(users, term, statusFilter), term, statusFilter)
         == FilteredUsers(users, term, statusFilter)
  {
    FilterIdempotent(users, Criteria(term, statusFilter));
  }

  /** An empty term leaves only the status filter: every user whose status
      passes is listed, with or without a phone. */
  lemma EmptyTermOnlyFiltersStatus(users: seq<User>, statusFilter: string)
    ensures forall u :: u in FilteredUsers(users, "", statusFilter) <==> u in users && MatchesStatus(u, statusFilter)
  {
    forall u | u in users ensures MatchesSearch(u, "") {
      EmptyTermMatches(u.name);
    }
  }

  /** `getStatusText` returns every status unchanged: its two cases map
      `Ativo` and `Banido` to themselves. */
  function StatusText(status: string): (r: string)
    ensures r == status
  {
    match status
    case "Ativo" => "Ativo"
    case "Banido" => "Banido"
    case _ => status
  }

  /** `getStatusColor`: green for `Ativo`, red for `Banido`, grey otherwise. */
  function StatusColour(status: string): (r: Colour)
    ensures r == Green <==> status == "Ativo"
    ensures r == Red <==> status == "Banido"
    ensures r == Grey <==> status != "Ativo" && status != "Banido"
  {
    match status
    case "Ativo" => Green
    case "Banido" => Red
    case _ => Grey
  }

  /** The actions cell offers the ban button exactly for status `Ativo` and
      the reactivate button for every other status. */
  function ActionFor(status: string): (a: Action)
    ensures a == Ban <==> status == "Ativo"
  {
    if status == "Ativo" then Ban else Reactivate
  }
}
