/**
  What each role's sidebar holds: the sections it lists, in order, and which
  of them start expanded. These follow from the decision table and the
  catalogs; they are proved catalog by catalog and then put together.
*/
module NavFacts {
  import opened Wrappers
  import opened SeqFilter
  import opened NavTypes
  import opened NavCatalog
  import opened NavMain

  /** The title of each section, paired with whether it starts expanded (`isActive` is true). */
  function Outline(items: seq<NavItem>): seq<(string, bool)>
  {
    seq(|items|, k requires 0 <= k < |items| => (items[k].title, items[k].isActive == Some(true)))
  }

  /** The outline of the sections of `items` that admit `role`, read off the catalog directly. */
  function VisibleOutline(items: seq<NavItem>, role: Role): seq<(string, bool)>
  {
    if |items| == 0 then []
    else
      (if Admits(items[0].roles, role) then [(items[0].title, items[0].isActive == Some(true))] else [])
      + VisibleOutline(items[1..], role)
  }

  lemma OutlineAppend(a: seq<NavItem>, b: seq<NavItem>)
    ensures Outline(a + b) == Outline(a) + Outline(b)
  {
  }

  /** Filtering by role keeps title and expansion flag, so the outline of the result is the visible outline. */
  lemma {:induction false} OutlineOfFilter(items: seq<NavItem>, role: Role)
    ensures Outline(FilterItemsByRole(items, role)) == VisibleOutline(items, role)
  {
    if |items| > 0 {
      OutlineOfFilter(items[1..], role);
      var head :=
        if Admits(items[0].roles, role) then [items[0].(items := VisibleSubItems(items[0].items, role))] else [];
      OutlineAppend(head, FilterItemsByRole(items[1..], role));
    }
  }

  /** The outline of the account entry. */
  const AccountHead := ("Account", false)

  /** The outline of one filtered catalog followed by the account entry. */
  lemma OutlineOfOne(sections: seq<NavItem>, s: seq<NavItem>, role: Role, os: seq<(string, bool)>)
    requires sections == FilterItemsByRole(s, role)
    requires VisibleOutline(s, role) == os
    ensures Outline(sections + [AccountSettingsItem]) == os + [AccountHead]
  {
    OutlineOfFilter(s, role);
    OutlineAppend(sections, [AccountSettingsItem]);
  }

  /** The outline of two filtered catalogs followed by the account entry. */
  lemma OutlineOfTwo(sections: seq<NavItem>, a: seq<NavItem>, s: seq<NavItem>, role: Role, oa: seq<(string, bool)>, os: seq<(string, bool)>)
    requires sections == FilterItemsByRole(a, role) + FilterItemsByRole(s, role)
    requires VisibleOutline(a, role) == oa && VisibleOutline(s, role) == os
    ensures Outline(sections + [AccountSettingsItem]) == oa + os + [AccountHead]
  {
    OutlineOfFilter(a, role);
    OutlineOfFilter(s, role);
    OutlineAppend(FilterItemsByRole(a, role), FilterItemsByRole(s, role));
    OutlineAppend(sections, [AccountSettingsItem]);
  }

  /** The outline of three filtered catalogs followed by the account entry. */
  lemma OutlineOfThree(
    sections: seq<NavItem>, c: seq<NavItem>, a: seq<NavItem>, s: seq<NavItem>, role: Role,
    oc: seq<(string, bool)>, oa: seq<(string, bool)>, os: seq<(string, bool)>)
    requires sections == FilterItemsByRole(c, role) + FilterItemsByRole(a, role) + FilterItemsByRole(s, role)
    requires VisibleOutline(c, role) == oc && VisibleOutline(a, role) == oa && VisibleOutline(s, role) == os
    ensures Outline(sections + [AccountSettingsItem]) == oc + oa + os + [AccountHead]
  {
    OutlineOfFilter(c, role);
    OutlineOfFilter(a, role);
    OutlineOfFilter(s, role);
    OutlineAppend(FilterItemsByRole(c, role), FilterItemsByRole(a, role));
    OutlineAppend(FilterItemsByRole(c, role) + FilterItemsByRole(a, role), FilterItemsByRole(s, role));
    OutlineAppend(sections, [AccountSettingsItem]);
  }

  // The rows of the decision table, whatever the catalogs hold. Each restates
  // one arm of the match in `SwitchSections`: they are unfolding steps that
  // keep the per-role proofs below cheap, not properties of their own.

  lemma StaffRow(role: Role, shopping: seq<NavItem>, admin: seq<NavItem>, vendor: seq<NavItem>, service: seq<NavItem>)
    requires role == Admin || role == Manager
    ensures SwitchSections(role, shopping, admin, vendor, service) == FilterItemsByRole(admin, role) + FilterItemsByRole(shopping, role)
  {
  }

  lemma VendorRow(role: Role, shopping: seq<NavItem>, admin: seq<NavItem>, vendor: seq<NavItem>, service: seq<NavItem>)
    requires role == Vendor
    ensures SwitchSections(role, shopping, admin, vendor, service) == FilterItemsByRole(vendor, role) + FilterItemsByRole(shopping, role)
  {
  }

  lemma ServiceRow(role: Role, shopping: seq<NavItem>, admin: seq<NavItem>, vendor: seq<NavItem>, service: seq<NavItem>)
    requires role == CustomerService
    ensures SwitchSections(role, shopping, admin, vendor, service)
      == FilterItemsByRole(service, role) + FilterItemsByRole(Filter(admin, ServiceAdminSection), role) + FilterItemsByRole(shopping, role)
  {
  }

  lemma DefaultRow(role: Role, shopping: seq<NavItem>, admin: seq<NavItem>, vendor: seq<NavItem>, service: seq<NavItem>)
    requires role !in {Admin, Manager, Vendor, CustomerService}
    ensures SwitchSections(role, shopping, admin, vendor, service) == FilterItemsByRole(shopping, role)
  {
  }

  /** What staff (admins, managers, service agents) see of the shopping catalog. */
  const StaffShopping := [("Shop", false), ("Categories Management", false), ("Promotions", false)]

  const AdminSections := [
    ("Dashboard", true), ("Product Management", false), ("Customer Management", false),
    ("Order Management", false), ("Vendor Management", false), ("Banner Management", false)]

  const ManagerSections := [
    ("Dashboard", false), ("Product Management", false), ("Customer Management", false),
    ("Order Management", false), ("Vendor Management", false), ("Banner Management", false)]

  const VendorSections := [("Vendor Dashboard", true), ("My Products", false), ("Orders", false), ("Shipping", false)]

  const ServiceSections := [
    ("Service Dashboard", true), ("Customer Support", false), ("Order Assistance", false), ("Knowledge Base", false)]

  const ShopperSections := [("My Orders", true), ("Support", false)]

  lemma AdminCatalogForAdmin()
    ensures VisibleOutline(AdminNavItems(Admin), Admin) == AdminSections
  {
  }

  lemma ShoppingCatalogForAdmin()
    ensures VisibleOutline(ShoppingNavItems(Admin), Admin) == StaffShopping
  {
  }

  // The per-role lemmas take the role as a parameter pinned by `requires`
  // rather than as a literal: with a literal role the solver unfolds the
  // catalogs eagerly and the proofs cost several times more.

  /** An admin sees every admin section, the dashboard expanded, then the staff shopping sections and the account entry. */
  lemma AdminSidebar(role: Role)
    requires role == Admin
    ensures Outline(AssembleNavItems(role)) == [
      ("Dashboard", true), ("Product Management", false), ("Customer Management", false),
      ("Order Management", false), ("Vendor Management", false), ("Banner Management", false)]
      + [("Shop", false), ("Categories Management", false), ("Promotions", false)]
      + [("Account", false)]
  {
    StaffRow(role, ShoppingNavItems(role), AdminNavItems(role), VendorNavItems(role), CustomerServiceNavItems(role));
    AdminCatalogForAdmin();
    ShoppingCatalogForAdmin();
    OutlineOfTwo(RoleSections(role), AdminNavItems(role), ShoppingNavItems(role), role, AdminSections, StaffShopping);
  }

  lemma AdminCatalogForManager()
    ensures VisibleOutline(AdminNavItems(Manager), Manager) == ManagerSections
  {
  }

  lemma ShoppingCatalogForManager()
    ensures VisibleOutline(ShoppingNavItems(Manager), Manager) == StaffShopping
  {
  }

  /** A manager sees the same sections as an admin, but no section starts expanded. */
  lemma ManagerSidebar(role: Role)
    requires role == Manager
    ensures Outline(AssembleNavItems(role)) == [
      ("Dashboard", false), ("Product Management", false), ("Customer Management", false),
      ("Order Management", false), ("Vendor Management", false), ("Banner Management", false)]
      + [("Shop", false), ("Categories Management", false), ("Promotions", false)]
      + [("Account", false)]
  {
    StaffRow(role, ShoppingNavItems(role), AdminNavItems(role), VendorNavItems(role), CustomerServiceNavItems(role));
    AdminCatalogForManager();
    ShoppingCatalogForManager();
    OutlineOfTwo(RoleSections(role), AdminNavItems(role), ShoppingNavItems(role), role, ManagerSections, StaffShopping);
  }

  lemma VendorCatalogForVendor()
    ensures VisibleOutline(VendorNavItems(Vendor), Vendor) == VendorSections
  {
  }

  lemma ShoppingCatalogForVendor()
    ensures VisibleOutline(ShoppingNavItems(Vendor), Vendor) == [("Shop", false), ("Promotions", false)]
  {
  }

  /** A vendor sees the vendor sections, the vendor dashboard expanded, then the shop and promotions. */
  lemma VendorSidebar(role: Role)
    requires role == Vendor
    ensures Outline(AssembleNavItems(role)) ==
      [("Vendor Dashboard", true), ("My Products", false), ("Orders", false), ("Shipping", false)]
      + [("Shop", false), ("Promotions", false)]
      + [("Account", false)]
  {
    VendorRow(role, ShoppingNavItems(role), AdminNavItems(role), VendorNavItems(role), CustomerServiceNavItems(role));
    VendorCatalogForVendor();
    ShoppingCatalogForVendor();
    OutlineOfTwo(RoleSections(role), VendorNavItems(role), ShoppingNavItems(role), role, VendorSections, [("Shop", false), ("Promotions", false)]);
  }

  lemma ServiceCatalogForAgent()
    ensures VisibleOutline(CustomerServiceNavItems(CustomerService), CustomerService) == ServiceSections
  {
  }

  /** The sections the title test picks from the admin catalog: customer and order management. */
  lemma ServiceAdminSections(role: Role)
    ensures Filter(AdminNavItems(role), ServiceAdminSection) == AdminNavItems(role)[2..4]
  {
    var a := AdminNavItems(role);
    var p := ServiceAdminSection;
    assert Filter(a[5..], p) == [];
    assert Filter(a[4..], p) == [];
    assert Filter(a[3..], p) == [a[3]];
    assert Filter(a[2..], p) == [a[2], a[3]];
    assert Filter(a[1..], p) == [a[2], a[3]];
  }

  lemma AdminCatalogForAgent()
    ensures VisibleOutline(Filter(AdminNavItems(CustomerService), ServiceAdminSection), CustomerService)
      == [("Customer Management", false), ("Order Management", false)]
  {
    var a := AdminNavItems(CustomerService);
    ServiceAdminSections(CustomerService);
    assert a[2..4] == [a[2], a[3]];
    assert VisibleOutline([a[3]], CustomerService) == [("Order Management", false)];
  }

  lemma ShoppingCatalogForAgent()
    ensures VisibleOutline(ShoppingNavItems(CustomerService), CustomerService) == StaffShopping
  {
  }

  /**
    A service agent sees the service sections, the service dashboard expanded,
    then customer and order management, then the staff shopping sections.
  */
  lemma CustomerServiceSidebar(role: Role)
    requires role == CustomerService
    ensures Outline(AssembleNavItems(role)) ==
      [("Service Dashboard", true), ("Customer Support", false), ("Order Assistance", false), ("Knowledge Base", false)]
      + [("Customer Management", false), ("Order Management", false)]
      + [("Shop", false), ("Categories Management", false), ("Promotions", false)]
      + [("Account", false)]
  {
    ServiceRow(role, ShoppingNavItems(role), AdminNavItems(role), VendorNavItems(role), CustomerServiceNavItems(role));
    ServiceCatalogForAgent();
    AdminCatalogForAgent();
    ShoppingCatalogForAgent();
    OutlineOfThree(
      RoleSections(role), CustomerServiceNavItems(role), Filter(AdminNavItems(role), ServiceAdminSection), ShoppingNavItems(role), role,
      ServiceSections, [("Customer Management", false), ("Order Management", false)], StaffShopping);
  }

  lemma ShoppingCatalogForUser()
    ensures VisibleOutline(ShoppingNavItems(User), User) == ShopperSections
  {
  }

  lemma ShoppingCatalogForCustomer()
    ensures VisibleOutline(ShoppingNavItems(Customer), Customer) == ShopperSections
  {
  }

  /** A user sees their orders, expanded, and support, then the account entry. */
  lemma UserSidebar(role: Role)
    requires role == User
    ensures Outline(AssembleNavItems(role)) == [("My Orders", true), ("Support", false)] + [("Account", false)]
  {
    DefaultRow(role, ShoppingNavItems(role), AdminNavItems(role), VendorNavItems(role), CustomerServiceNavItems(role));
    ShoppingCatalogForUser();
    OutlineOfOne(RoleSections(role), ShoppingNavItems(role), role, ShopperSections);
  }

  /** A customer sees the same outline as a user. */
  lemma CustomerSidebar(role: Role)
    requires role == Customer
    ensures Outline(AssembleNavItems(role)) == [("My Orders", true), ("Support", false)] + [("Account", false)]
  {
    DefaultRow(role, ShoppingNavItems(role), AdminNavItems(role), VendorNavItems(role), CustomerServiceNavItems(role));
    ShoppingCatalogForCustomer();
    OutlineOfOne(RoleSections(role), ShoppingNavItems(role), role, ShopperSections);
  }

  /** A session with no role, or an empty one, gets the sidebar of a customer. */
  lemma MissingRoleLikeCustomer(claim: Option<string>)
    requires claim == None || claim == Some("")
    ensures NavMain.NavMain(claim) == NavMain.NavMain(Some("CUSTOMER"))
  {
    DefaultClaim(claim);
    SameRoleSameSidebar(claim, Some("CUSTOMER"));
  }

  lemma DefaultClaim(claim: Option<string>)
    requires claim == None || claim == Some("")
    ensures ResolveRole(claim) == ResolveRole(Some("CUSTOMER"))
  {
    ResolveRoleName(Customer);
  }

  lemma SameRoleSameSidebar(claim: Option<string>, claim': Option<string>)
    requires ResolveRole(claim) == ResolveRole(claim')
    ensures NavMain.NavMain(claim) == NavMain.NavMain(claim')
  {
  }

  /**
    A role that is none of the six named roles reaches every default branch:
    the only section is the account entry.
  */
  lemma UnknownRoleSidebar(role: Role)
    requires role.Other?
    ensures AssembleNavItems(role) == [AccountSettingsItem]
  {
    DefaultRow(role, ShoppingNavItems(role), AdminNavItems(role), VendorNavItems(role), CustomerServiceNavItems(role));
    ShoppingHiddenFromOther(role);
  }

  /** No shopping section admits a role outside the six named ones. */
  lemma ShoppingHiddenFromOther(role: Role)
    requires role.Other?
    ensures FilterItemsByRole(ShoppingNavItems(role), role) == []
  {
    var shopping := ShoppingNavItems(role);
    NoShoppingSectionForOther(role);
    FilterKeepsNone(shopping, ItemVisible(role));
    FilterItemsByRoleIsFilterThenMap(shopping, role);
  }

  lemma NoShoppingSectionForOther(role: Role)
    requires role.Other?
    ensures forall x :: x in ShoppingNavItems(role) ==> !ItemVisible(role)(x)
  {
  }

  /** Every role list of `subs` admits `r1` exactly when it admits `r2`. */
  predicate SubItemsAlike(subs: seq<SubItem>, r1: Role, r2: Role)
  {
    |subs| == 0 || ((Admits(subs[0].roles, r1) <==> Admits(subs[0].roles, r2)) && SubItemsAlike(subs[1..], r1, r2))
  }

  /** Every role list in `items`, of sections and of their links, admits `r1` exactly when it admits `r2`. */
  predicate AlikeIn(items: seq<NavItem>, r1: Role, r2: Role)
  {
    || |items| == 0
    || (&& (Admits(items[0].roles, r1) <==> Admits(items[0].roles, r2))
        && SubItemsAlike(items[0].items, r1, r2)
        && AlikeIn(items[1..], r1, r2))
  }

  lemma {:induction false} VisibleSubItemsAlike(subs: seq<SubItem>, r1: Role, r2: Role)
    requires SubItemsAlike(subs, r1, r2)
    ensures VisibleSubItems(subs, r1) == VisibleSubItems(subs, r2)
  {
    if |subs| > 0 {
      VisibleSubItemsAlike(subs[1..], r1, r2);
    }
  }

  /** Roles that every role list treats alike get the same filtered list. */
  lemma {:induction false} FilterItemsByRoleAlike(items: seq<NavItem>, r1: Role, r2: Role)
    requires AlikeIn(items, r1, r2)
    ensures FilterItemsByRole(items, r1) == FilterItemsByRole(items, r2)
  {
    if |items| > 0 {
      VisibleSubItemsAlike(items[0].items, r1, r2);
      FilterItemsByRoleAlike(items[1..], r1, r2);
    }
  }

  /**
    A user and a customer are shown the same sections. As in the per-role
    lemmas, the roles are parameters pinned by `requires` to keep the proof
    cheap.
  */
  lemma UserLikeCustomer(r1: Role, r2: Role)
    requires r1 == User && r2 == Customer
    ensures AssembleNavItems(r1) == AssembleNavItems(r2)
  {
    DefaultRow(r1, ShoppingNavItems(r1), AdminNavItems(r1), VendorNavItems(r1), CustomerServiceNavItems(r1));
    DefaultRow(r2, ShoppingNavItems(r2), AdminNavItems(r2), VendorNavItems(r2), CustomerServiceNavItems(r2));
    ShoppingSameForUserAndCustomer();
    ShoppingAlikeForUserAndCustomer();
    FilterItemsByRoleAlike(ShoppingNavItems(User), User, Customer);
  }

  /** The shopping catalog is the same for a user and a customer: both see their orders expanded. */
  lemma ShoppingSameForUserAndCustomer()
    ensures ShoppingNavItems(User) == ShoppingNavItems(Customer)
  {
  }

  /** Every role list of the shopping catalog names both a user and a customer or neither. */
  lemma ShoppingAlikeForUserAndCustomer()
    ensures AlikeIn(ShoppingNavItems(User), User, Customer)
  {
  }

  /**
    The account entry is appended without filtering its links: every role's
    sidebar ends with the account entry, whose third link, Wishlist, is shown
    although its role list admits only users and customers.
  */
  lemma WishlistShownToEveryRole(role: Role)
    ensures var r := AssembleNavItems(role);
      && |r| > 0 && |r[|r| - 1].items| == 7
      && r[|r| - 1].items[2].title == "Wishlist"
      && (Admits(r[|r| - 1].items[2].roles, role) <==> role in {User, Customer})
  {
    AssembleNavItemsShape(role);
    WishlistLink(role);
  }

  lemma WishlistLink(role: Role)
    ensures |AccountSettingsItem.items| == 7 && AccountSettingsItem.items[2].title == "Wishlist"
    ensures Admits(AccountSettingsItem.items[2].roles, role) <==> role in {User, Customer}
  {
    assert AccountSettingsItem.items[2].roles == Some([User, Customer]);
  }

  /** A role list that is absent or names only the six named roles. */
  predicate ListNamed(roles: Option<seq<Role>>)
  {
    roles.None? || NamedOnly(roles.value)
  }

  /** A section whose own role list and every link's role list name only named roles. */
  predicate SectionNamed(x: NavItem)
  {
    ListNamed(x.roles) && forall j :: 0 <= j < |x.items| ==> ListNamed(x.items[j].roles)
  }

  /** Every section and link role list in `items` names only the six named roles. */
  predicate RoleListsNamed(items: seq<NavItem>)
  {
    forall k :: 0 <= k < |items| ==> SectionNamed(items[k])
  }

  /** The catalogs write their role lists with the six role names only. */
  lemma ShoppingRoleListsNamed(role: Role)
    ensures RoleListsNamed(ShoppingNavItems(role))
  {
    var c := ShoppingNavItems(role);
    assert SectionNamed(c[0]);
    assert SectionNamed(c[1]);
    assert SectionNamed(c[2]);
    assert SectionNamed(c[3]);
    assert SectionNamed(c[4]);
  }

  lemma AdminRoleListsNamed(role: Role)
    ensures RoleListsNamed(AdminNavItems(role))
  {
    var c := AdminNavItems(role);
    assert SectionNamed(c[0]);
    assert SectionNamed(c[1]);
    assert SectionNamed(c[2]);
    assert SectionNamed(c[3]);
    assert SectionNamed(c[4]);
    assert SectionNamed(c[5]);
  }

  lemma VendorRoleListsNamed(role: Role)
    ensures RoleListsNamed(VendorNavItems(role))
  {
    var c := VendorNavItems(role);
    assert SectionNamed(c[0]);
    assert SectionNamed(c[1]);
    assert SectionNamed(c[2]);
    assert SectionNamed(c[3]);
  }

  lemma ServiceRoleListsNamed(role: Role)
    ensures RoleListsNamed(CustomerServiceNavItems(role))
  {
    var c := CustomerServiceNavItems(role);
    assert SectionNamed(c[0]);
    assert SectionNamed(c[1]);
    assert SectionNamed(c[2]);
    assert SectionNamed(c[3]);
  }

  lemma AccountRoleListsNamed()
    ensures RoleListsNamed([AccountSettingsItem])
  {
    assert SectionNamed(AccountSettingsItem);
  }

  /** The source's test on names: no role list, or one holding an entry with the role's name. */
  ghost predicate AdmitsName(roles: Option<seq<Role>>, role: Role)
  {
    roles.None? || exists q :: q in roles.value && RoleName(q) == RoleName(role)
  }

  /**
    For a canonical role, every section and link of a catalog written with
    named roles only admits the role exactly when the source's name test does.
  */
  lemma CatalogAdmitsByName(items: seq<NavItem>, role: Role)
    requires RoleListsNamed(items) && Canonical(role)
    ensures forall k :: 0 <= k < |items| ==> (Admits(items[k].roles, role) <==> AdmitsName(items[k].roles, role))
    ensures forall k, j :: 0 <= k < |items| && 0 <= j < |items[k].items| ==>
      (Admits(items[k].items[j].roles, role) <==> AdmitsName(items[k].items[j].roles, role))
  {
    forall k | 0 <= k < |items| && items[k].roles.Some? {
      AdmitsByName(items[k].roles.value, role);
    }
    forall k, j | 0 <= k < |items| && 0 <= j < |items[k].items| && items[k].items[j].roles.Some? {
      AdmitsByName(items[k].items[j].roles.value, role);
    }
  }
}
