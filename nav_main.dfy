/**
  The selection logic of the `NavMain` sidebar: filtering the catalogs by
  role, choosing the header label, and assembling the sections a role sees.
  The session lookup is replaced by its result, the role claim, and the
  rendering of the list is not modelled.
*/
module NavMain {
  import opened Wrappers
  import opened SeqFilter
  import opened NavTypes
  import opened NavCatalog

  /** The visibility test applied to sections. */
  function ItemVisible(role: Role): NavItem -> bool
  {
    (item: NavItem) => Admits(item.roles, role)
  }

  /** The visibility test applied to links. */
  function SubItemVisible(role: Role): SubItem -> bool
  {
    (sub: SubItem) => Admits(sub.roles, role)
  }

  /** `role` may see the section and every link in it. */
  predicate ShownTo(item: NavItem, role: Role)
  {
    Admits(item.roles, role) && forall sub :: sub in item.items ==> Admits(sub.roles, role)
  }

  /**
    The links of `subs` that `role` may see, in order: the inner
    `item.items.filter(...)` of `filterItemsByRole`.
  */
  function VisibleSubItems(subs: seq<SubItem>, role: Role): seq<SubItem>
  {
    if |subs| == 0 then []
    else (if Admits(subs[0].roles, role) then [subs[0]] else []) + VisibleSubItems(subs[1..], role)
  }

  /**
    `filterItemsByRole`: the sections `role` may see, in order, each a copy
    whose links are only those `role` may see.
  */
  function FilterItemsByRole(items: seq<NavItem>, role: Role): seq<NavItem>
  {
    if |items| == 0 then []
    else
      (if Admits(items[0].roles, role)
       then [items[0].(items := VisibleSubItems(items[0].items, role))]
       else [])
      + FilterItemsByRole(items[1..], role)
  }

  /** The copy step of the reference pipeline: `{...item, items: item.items.filter(...)}`. */
  function WithVisibleSubItems(role: Role): NavItem -> NavItem
  {
    (item: NavItem) => item.(items := Filter(item.items, SubItemVisible(role)))
  }

  /** The link filter is `Array.prototype.filter` with the visibility test. */
  lemma {:induction false} VisibleSubItemsIsFilter(subs: seq<SubItem>, role: Role)
    ensures VisibleSubItems(subs, role) == Filter(subs, SubItemVisible(role))
  {
    if |subs| > 0 {
      VisibleSubItemsIsFilter(subs[1..], role);
    }
  }

  /**
    `FilterItemsByRole` is the source's pipeline: `filter` the sections with
    the visibility test, then `map` each to a copy with its links filtered.
  */
  lemma {:induction false} FilterItemsByRoleIsFilterThenMap(items: seq<NavItem>, role: Role)
    ensures FilterItemsByRole(items, role) == Map(Filter(items, ItemVisible(role)), WithVisibleSubItems(role))
  {
    if |items| > 0 {
      FilterItemsByRoleIsFilterThenMap(items[1..], role);
      VisibleSubItemsIsFilter(items[0].items, role);
      var rest := Filter(items[1..], ItemVisible(role));
      var f := WithVisibleSubItems(role);
      if Admits(items[0].roles, role) {
        assert Map([items[0]] + rest, f) == [f(items[0])] + Map(rest, f);
      }
    }
  }

  lemma FilterSubItemsMembers(kept: seq<NavItem>, role: Role)
    ensures forall x :: x in kept ==> forall sub :: sub in WithVisibleSubItems(role)(x).items ==> Admits(sub.roles, role)
  {
    forall x | x in kept
    {
      FilterMembers(x.items, SubItemVisible(role));
    }
  }

  /** Everything the filter returns, section and links, is visible to `role`; and it never lengthens. */
  lemma FilterItemsByRoleShown(items: seq<NavItem>, role: Role)
    ensures |FilterItemsByRole(items, role)| <= |items|
    ensures forall y :: y in FilterItemsByRole(items, role) ==> ShownTo(y, role)
  {
    FilterItemsByRoleIsFilterThenMap(items, role);
    var kept := Filter(items, ItemVisible(role));
    FilterMembers(items, ItemVisible(role));
    FilterSubItemsMembers(kept, role);
    assert forall k :: 0 <= k < |kept| ==> kept[k] in kept;
  }

  /**
    `y` is `x` with nothing changed but its links, which are those of `x` that
    `role` may see, in their original order.
  */
  ghost predicate TrimmedFor(y: NavItem, x: NavItem, role: Role)
  {
    && y.title == x.title
    && y.url == x.url
    && y.icon == x.icon
    && y.isActive == x.isActive
    && y.roles == x.roles
    && IsFilterOf(y.items, x.items, SubItemVisible(role))
  }

  /**
    `r` lists, in catalog order, exactly the sections of `items` that `role`
    may see, each trimmed to the links `role` may see.
  */
  ghost predicate IsRoleFiltering(r: seq<NavItem>, items: seq<NavItem>, role: Role)
  {
    exists idx ::
      && EnumeratesSatisfying(idx, items, ItemVisible(role))
      && |idx| == |r|
      && forall k :: 0 <= k < |r| ==> 0 <= idx[k] < |items| && TrimmedFor(r[k], items[idx[k]], role)
  }

  /** `FilterItemsByRole` meets `IsRoleFiltering`. */
  lemma FilterItemsByRoleIsRoleFiltering(items: seq<NavItem>, role: Role)
    ensures IsRoleFiltering(FilterItemsByRole(items, role), items, role)
  {
    FilterItemsByRoleIsFilterThenMap(items, role);
    var r := FilterItemsByRole(items, role);
    var kept := Filter(items, ItemVisible(role));
    FilterIsFilterOf(items, ItemVisible(role));
    var idx :| EnumeratesSatisfying(idx, items, ItemVisible(role)) && PicksAt(kept, items, idx);
    forall k | 0 <= k < |r|
      ensures 0 <= idx[k] < |items| && TrimmedFor(r[k], items[idx[k]], role)
    {
      FilterIsFilterOf(items[idx[k]].items, SubItemVisible(role));
    }
  }

  /** Only `FilterItemsByRole` meets `IsRoleFiltering`. */
  lemma RoleFilteringUnique(r: seq<NavItem>, items: seq<NavItem>, role: Role)
    requires IsRoleFiltering(r, items, role)
    ensures r == FilterItemsByRole(items, role)
  {
    var idx :| EnumeratesSatisfying(idx, items, ItemVisible(role)) && |idx| == |r|
      && forall k :: 0 <= k < |r| ==> 0 <= idx[k] < |items| && TrimmedFor(r[k], items[idx[k]], role);
    var kept := Filter(items, ItemVisible(role));
    FilterIsFilterOf(items, ItemVisible(role));
    var idx' :| EnumeratesSatisfying(idx', items, ItemVisible(role)) && PicksAt(kept, items, idx');
    EnumerationUnique(items, ItemVisible(role), idx, idx');
    FilterItemsByRoleIsFilterThenMap(items, role);
    forall k | 0 <= k < |r|
      ensures r[k] == WithVisibleSubItems(role)(kept[k])
    {
      TrimmedUnique(r[k], items[idx[k]], role);
    }
  }

  /** A section trimmed for `role` is the copy the source's `map` step makes. */
  lemma TrimmedUnique(y: NavItem, x: NavItem, role: Role)
    requires TrimmedFor(y, x, role)
    ensures y == WithVisibleSubItems(role)(x)
  {
    FilterUnique(y.items, x.items, SubItemVisible(role));
  }

  /** A list is the role filtering of `items` if and only if it is `FilterItemsByRole(items, role)`. */
  lemma FilterItemsByRoleCharacterized(r: seq<NavItem>, items: seq<NavItem>, role: Role)
    ensures r == FilterItemsByRole(items, role) <==> IsRoleFiltering(r, items, role)
  {
    if r == FilterItemsByRole(items, role) {
      FilterItemsByRoleIsRoleFiltering(items, role);
    }
    if IsRoleFiltering(r, items, role) {
      RoleFilteringUnique(r, items, role);
    }
  }

  /**
    A section of `items` reaches the result, with its links trimmed, exactly
    when its role list admits `role`; and everything in the result comes from
    such a section.
  */
  lemma FilterItemsByRoleKeepsExactly(items: seq<NavItem>, role: Role)
    ensures forall x :: x in items ==>
      (WithVisibleSubItems(role)(x) in FilterItemsByRole(items, role) <==> Admits(x.roles, role))
    ensures forall y :: y in FilterItemsByRole(items, role) ==>
      exists x :: x in items && Admits(x.roles, role) && y == WithVisibleSubItems(role)(x)
  {
    var kept := Filter(items, ItemVisible(role));
    var r := FilterItemsByRole(items, role);
    FilterItemsByRoleIsFilterThenMap(items, role);
    FilterMembers(items, ItemVisible(role));
    forall x | x in items
      ensures WithVisibleSubItems(role)(x) in r <==> Admits(x.roles, role)
    {
      if Admits(x.roles, role) {
        assert x in kept;
        var k :| 0 <= k < |kept| && kept[k] == x;
        assert r[k] == WithVisibleSubItems(role)(x);
      }
      if WithVisibleSubItems(role)(x) in r {
        var k :| 0 <= k < |r| && r[k] == WithVisibleSubItems(role)(x);
        assert kept[k] in kept;
      }
    }
    forall y | y in r
      ensures exists x :: x in items && Admits(x.roles, role) && y == WithVisibleSubItems(role)(x)
    {
      var k :| 0 <= k < |r| && r[k] == y;
      assert kept[k] in kept;
    }
  }

  /** Filtering an already filtered list by the same role changes nothing. */
  lemma FilterItemsByRoleIdempotent(items: seq<NavItem>, role: Role)
    ensures FilterItemsByRole(FilterItemsByRole(items, role), role) == FilterItemsByRole(items, role)
  {
    var r := FilterItemsByRole(items, role);
    FilterItemsByRoleShown(items, role);
    FilterItemsByRoleIsFilterThenMap(items, role);
    FilterItemsByRoleIsFilterThenMap(r, role);
    FilterKeepsAll(r, ItemVisible(role));
    forall k | 0 <= k < |r|
      ensures WithVisibleSubItems(role)(r[k]) == r[k]
    {
      assert r[k] in r;
      FilterKeepsAll(r[k].items, SubItemVisible(role));
    }
  }

  /** `getSidebarLabel`: the header label of the sidebar. */
  function SidebarLabel(role: Role): (heading: string)
    ensures heading == "Admin Console" <==> role == Admin
    ensures heading == "Management" <==> role == Manager
    ensures heading == "Vendor Portal" <==> role == Vendor
    ensures heading == "Customer Service" <==> role == CustomerService
    ensures heading == "Shopping" <==> role !in {Admin, Manager, Vendor, CustomerService}
  {
    match role
    case Admin => "Admin Console"
    case Manager => "Management"
    case Vendor => "Vendor Portal"
    case CustomerService => "Customer Service"
    case _ => "Shopping"
  }

  /** The test that picks the admin sections a customer service agent also gets. */
  const ServiceAdminSection: NavItem -> bool :=
    (item: NavItem) => item.title == "Customer Management" || item.title == "Order Management"

  /**
    The role-keyed decision table over the four catalogs: the filtered
    catalogs a role gets, in order, before the account entry.
  */
  function SwitchSections(role: Role, shopping: seq<NavItem>, admin: seq<NavItem>, vendor: seq<NavItem>, service: seq<NavItem>): seq<NavItem>
  {
    match role
    case Admin => FilterItemsByRole(admin, role) + FilterItemsByRole(shopping, role)
    case Manager => FilterItemsByRole(admin, role) + FilterItemsByRole(shopping, role)
    case Vendor => FilterItemsByRole(vendor, role) + FilterItemsByRole(shopping, role)
    case CustomerService =>
      FilterItemsByRole(service, role)
      + FilterItemsByRole(Filter(admin, ServiceAdminSection), role)
      + FilterItemsByRole(shopping, role)
    case _ => FilterItemsByRole(shopping, role)
  }

  /** The decision table applied to the catalogs as the role sees them. */
  function RoleSections(role: Role): seq<NavItem>
  {
    SwitchSections(role, ShoppingNavItems(role), AdminNavItems(role), VendorNavItems(role), CustomerServiceNavItems(role))
  }

  /**
    The sections of the sidebar: the role's sections followed by the account
    entry, which is appended without filtering.
  */
  function AssembleNavItems(role: Role): seq<NavItem>
  {
    RoleSections(role) + [AccountSettingsItem]
  }

  /**
    For every role the list ends with the account entry, all seven of its
    links included, and every section before it is visible to the role, with
    only links visible to the role.
  */
  lemma AssembleNavItemsShape(role: Role)
    ensures var r := AssembleNavItems(role);
      && |r| > 0 && r[|r| - 1] == AccountSettingsItem && |r[|r| - 1].items| == 7
      && forall k :: 0 <= k < |r| - 1 ==> ShownTo(r[k], role)
  {
    RoleSectionsShown(role);
    AccountAppended(RoleSections(role), role);
  }

  lemma AccountAppended(sections: seq<NavItem>, role: Role)
    requires forall y :: y in sections ==> ShownTo(y, role)
    ensures var r := sections + [AccountSettingsItem];
      && |r| > 0 && r[|r| - 1] == AccountSettingsItem && |r[|r| - 1].items| == 7
      && forall k :: 0 <= k < |r| - 1 ==> ShownTo(r[k], role)
  {
    assert forall k :: 0 <= k < |sections| ==> sections[k] in sections;
  }

  /** Whatever the catalogs, every section the decision table selects for a role is visible to it. */
  lemma SwitchSectionsShown(role: Role, shopping: seq<NavItem>, admin: seq<NavItem>, vendor: seq<NavItem>, service: seq<NavItem>)
    ensures forall y :: y in SwitchSections(role, shopping, admin, vendor, service) ==> ShownTo(y, role)
  {
    FilterItemsByRoleShown(shopping, role);
    match role
    case Admin =>
      FilterItemsByRoleShown(admin, role);
    case Manager =>
      FilterItemsByRoleShown(admin, role);
    case Vendor =>
      FilterItemsByRoleShown(vendor, role);
    case CustomerService =>
      FilterItemsByRoleShown(service, role);
      FilterItemsByRoleShown(Filter(admin, ServiceAdminSection), role);
    case _ =>
  }

  lemma RoleSectionsShown(role: Role)
    ensures forall y :: y in RoleSections(role) ==> ShownTo(y, role)
  {
    SwitchSectionsShown(role, ShoppingNavItems(role), AdminNavItems(role), VendorNavItems(role), CustomerServiceNavItems(role));
  }

  /** What `NavMain` renders: the header label and the list of sections. */
  datatype Sidebar = Sidebar(header: string, items: seq<NavItem>)

  /** The sidebar for the session's role claim (`None` when there is no session, user or role). */
  function NavMain(claim: Option<string>): Sidebar
  {
    var role := ResolveRole(claim);
    Sidebar(SidebarLabel(role), AssembleNavItems(role))
  }
}
