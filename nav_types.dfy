/**
  The data of the dashboard sidebar: user roles, navigation entries and their
  sub-entries, the visibility rule that ties them together, and the way the
  signed-in user's role claim becomes a role.
*/
module NavTypes {
  import opened Wrappers

  /**
    A user role. The six named constructors are the members of `UserRole`; the
    role claim of a session is only type-cast to that union, so any other string
    reaches the code unchanged and is kept here as `Other(name)`.
  */
  datatype Role =
    | Admin
    | Manager
    | Vendor
    | CustomerService
    | User
    | Customer
    | Other(name: string)

  /** The string a role stands for in the session and in the role lists. */
  function RoleName(r: Role): string
  {
    match r
    case Admin => "ADMIN"
    case Manager => "MANAGER"
    case Vendor => "VENDOR"
    case CustomerService => "CUSTOMER_SERVICE"
    case User => "USER"
    case Customer => "CUSTOMER"
    case Other(name) => name
  }

  /**
    A role as the code can hold it: `Other` only ever carries a non-empty
    string that is not one of the six names, so each role string has exactly
    one `Role` and comparing roles is comparing their strings.
  */
  predicate Canonical(r: Role)
  {
    r.Other? ==> r.name !in {"", "ADMIN", "MANAGER", "VENDOR", "CUSTOMER_SERVICE", "USER", "CUSTOMER"}
  }

  /** Reads a non-empty role string. */
  function ParseRole(s: string): Role
  {
    if s == "ADMIN" then Admin
    else if s == "MANAGER" then Manager
    else if s == "VENDOR" then Vendor
    else if s == "CUSTOMER_SERVICE" then CustomerService
    else if s == "USER" then User
    else if s == "CUSTOMER" then Customer
    else Other(s)
  }

  /**
    The role the sidebar is built for. `claim` is the session's `user.role`:
    `None` when there is no session, no user or no role. A missing or empty
    claim falls back to `CUSTOMER`; any other string is taken as it is.
  */
  function ResolveRole(claim: Option<string>): (r: Role)
    ensures Canonical(r)
    ensures claim.None? || claim == Some("") ==> r == Customer
    ensures claim.Some? && claim.value != "" ==> RoleName(r) == claim.value
  {
    match claim
    case None => Customer
    case Some(s) => if s == "" then Customer else ParseRole(s)
  }

  /** On canonical roles, equal names mean equal roles. */
  lemma RoleNameInjective(r: Role, q: Role)
    requires Canonical(r) && Canonical(q)
    ensures RoleName(r) == RoleName(q) <==> r == q
  {
  }

  /** Resolving the name of a canonical role gives the role back. */
  lemma ResolveRoleName(r: Role)
    requires Canonical(r)
    ensures ResolveRole(Some(RoleName(r))) == r
  {
  }

  /** The icons the catalog refers to; they carry no behaviour. */
  datatype Icon =
    | BadgePercent
    | BarChart2
    | ClipboardList
    | FileText
    | HelpCircle
    | Image
    | MessageSquare
    | Package
    | Settings
    | ShoppingBag
    | ShoppingCart
    | Store
    | Tag
    | Truck
    | Users

  /** A link inside a navigation section; `roles == None` means no restriction. */
  datatype SubItem = SubItem(title: string, url: string, roles: Option<seq<Role>>)

  /**
    A navigation section. `isActive` is the optional flag that opens the
    section initially; `roles == None` means no restriction.
  */
  datatype NavItem = NavItem(
    title: string,
    url: string,
    icon: Icon,
    isActive: Option<bool>,
    roles: Option<seq<Role>>,
    items: seq<SubItem>)

  /**
    The visibility rule shared by sections and links: no role list, or a role
    list that includes `role`. A present but empty list admits nobody.
  */
  predicate Admits(roles: Option<seq<Role>>, role: Role)
  {
    roles.None? || role in roles.value
  }

  /** A role list as the catalog writes it: only the six named roles. */
  predicate NamedOnly(roles: seq<Role>)
  {
    forall q :: q in roles ==> !q.Other?
  }

  /**
    Membership of a canonical role in a list of named roles is membership of
    its name among their names, which is what the string comparison of
    `includes` tests.
  */
  lemma AdmitsByName(roles: seq<Role>, role: Role)
    requires Canonical(role) && NamedOnly(roles)
    ensures role in roles <==> exists q :: q in roles && RoleName(q) == RoleName(role)
  {
    if q :| q in roles && RoleName(q) == RoleName(role) {
      RoleNameInjective(q, role);
    }
  }
}
