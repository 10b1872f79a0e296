/** The administrators screen (src/components/admin/AdminsManagement.tsx):
    search over name and e-mail, the truncated permissions cell, the role and
    status badges and the count in the list heading. */
module AdminsManagement {
  import opened Wrappers
  import opened Lists
  import opened Text
  import opened Ui

  datatype Admin = Admin(id: int, name: string, email: string, role: string, status: string, permissions: seq<string>)

  /** The permissions cell: the badges shown and the `+N mais` note, if any. */
  datatype PermissionsCell = PermissionsCell(shown: seq<string>, more: Option<nat>)

  predicate MatchesSearch(a: Admin, term: string) {
    ContainsIgnoringCase(a.name, term) || ContainsIgnoringCase(a.email, term)
  }

  function Criteria(term: string): Admin -> bool {
    a => MatchesSearch(a, term)
  }

  /** `filteredAdmins`. */
  function FilteredAdmins(admins: seq<Admin>, term: string): (r: seq<Admin>)
    ensures IsSubseq(r, admins)
    ensures forall a :: a in r <==> a in admins && MatchesSearch(a, term)
  {
    FilterFacts(admins, Criteria(term));
    Filter(admins, Criteria(term))
  }

  lemma EmptyTermListsEveryAdmin(admins: seq<Admin>)
    ensures FilteredAdmins(admins, "") == admins
  {
    forall i | 0 <= i < |admins| ensures Criteria("")(admins[i]) {
      EmptyTermMatches(admins[i].name);
    }
    FilterKeepsAll(admins, Criteria(""));
  }

  /** The number in `Lista de Administradores (N)`. */
  function HeadingCount(admins: seq<Admin>, term: string): (n: nat)
    ensures n <= |admins|
    ensures term == "" ==> n == |admins|
  {
    if term == "" then EmptyTermListsEveryAdmin(admins); |FilteredAdmins(admins, term)|
    else |FilteredAdmins(admins, term)|
  }

  /** The first two permissions (all of them when fewer) are shown, in
      order, and the note counts the rest: shown plus noted is every
      permission. */
  function PermissionsCellOf(permissions: seq<string>): (c: PermissionsCell)
    ensures |c.shown| <= 2 && |c.shown| <= |permissions| && c.shown == permissions[..|c.shown|]
    ensures c.more.Some? <==> |permissions| > 2
    ensures |c.shown| + c.more.GetOr(0) == |permissions|
    ensures |c.shown| == if |permissions| < 2 then |permissions| else 2
    ensures |permissions| > 2 ==> c.more == Some(|permissions| - 2)
  {
    var k := if |permissions| < 2 then |permissions| else 2;
    PermissionsCell(permissions[..k], if |permissions| > 2 then Some(|permissions| - 2) else None)
  }

  /** The role badge: red for `Super Admin`, blue for `Gerente`, green for any other role. */
  function RoleColour(role: string): (r: Colour)
    ensures r == Red <==> role == "Super Admin"
    ensures r == Blue <==> role == "Gerente"
    ensures r == Green <==> role != "Super Admin" && role != "Gerente"
  {
    if role == "Super Admin" then Red else if role == "Gerente" then Blue else Green
  }

  /** The status badge: default and green for `Ativo`, secondary and red otherwise. */
  function StatusBadge(status: string): (b: Badge)
    ensures b.variant == DefaultVariant <==> status == "Ativo"
    ensures b.colour == (if status == "Ativo" then Green else Red)
  {
    TwoStateBadge(status == "Ativo", Red)
  }
}
