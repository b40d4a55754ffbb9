# Role-based dashboard navigation

This project models how the dashboard sidebar of the shop decides what to
show. The `NavMain` component works in five steps:

1. It reads the signed-in user's role claim. A missing or empty claim
   counts as `CUSTOMER`.
2. It holds four literal catalogs of navigation sections (shopping, admin,
   vendor and customer service) and one literal account entry.
3. It filters each of the four section catalogs it uses by role. A
   section, and each link in a section, is kept when it has no role list
   or its role list names the role.
4. It concatenates the filtered catalogs in a fixed order for each role and
   appends the account entry, which it does not filter.
5. It picks the header label for the role.

All of this is modelled with pure functions and lemmas. There are no
classes and no loops.

Files:

- `wrappers.dfy` defines `Option`.
- `seq_filter.dfy` defines `Array.prototype.filter` and `map` as `Filter`
  and `Map`. It also gives a description of filtering that is independent
  of the recursion: which positions are kept, and in what order. It proves
  that `Filter` is the one sequence meeting that description.
- `nav_types.dfy` defines roles, role resolution, sections (`NavItem`),
  links (`SubItem`) and the visibility rule `Admits`.
- `nav_catalog.dfy` holds the five catalogs as literal data. A catalog
  whose `isActive` flag depends on the role is a function of the role.
- `nav_main.dfy` holds `filterItemsByRole`, `getSidebarLabel`, the role
  switch, the assembled list and `NavMain` itself.
- `nav_facts.dfy` proves, role by role, which sections the sidebar lists
  and which of them start expanded (`defaultOpen={item.isActive}`). It also
  proves that users and customers see the same sections, that an unknown
  role sees only the account entry, and that the account entry, with its
  Wishlist link, is never filtered.

## Modelling choices

Roles:

- The role claim is only type-cast to `UserRole` in the source, so any
  string can arrive. A role is one of six named constructors or
  `Other(name)`.
- `ResolveRole` only builds `Other` for a non-empty string that names none
  of the six roles. Comparing two roles in the model is therefore the same
  as comparing their strings, which is what `includes` and `===` do.
- `NavTypes.AdmitsByName` proves this for role lists that name only the
  six roles, and the `RoleListsNamed` lemmas in `NavFacts` prove that every
  catalog's role lists are of that kind (`NavFacts.CatalogAdmitsByName`).

Role lists:

- A role list is `Option<seq<Role>>`.
- `None` is an absent list, which admits everyone.
- `Some([])` admits nobody, because an empty array is truthy in the source.

Other choices:

- `FilterItemsByRole` is written as one first-order recursion. This keeps
  concrete evaluation cheap. `NavMain.FilterItemsByRoleIsFilterThenMap`
  proves that it equals the source's pipeline: `filter` the sections, then
  `map` each to a copy whose links are filtered.
- The role switch, `SwitchSections`, takes the four catalogs as
  parameters. `RoleSections` applies it to the catalogs as the role sees
  them.
- The Wishlist link's own role list names only USER and CUSTOMER
  (nav-main.tsx:562). The code never applies that list, because the account
  entry is appended unfiltered (nav-main.tsx:620, 627, 634, 648 and 652).
  So every role, ADMIN included, sees Wishlist; the model follows the code
  (`NavFacts.WishlistShownToEveryRole`).

## Model

| member | source | states |
|---|---|---|
| NavTypes.ParseRole | components/layout/dashboard/nav-main.tsx:62 | definition: the string cast of the claim to `UserRole`; no contract of its own, see `NavTypes.ResolveRole` and `NavTypes.ResolveRoleName` |
| NavTypes.ResolveRole | components/layout/dashboard/nav-main.tsx:62 | a missing or empty claim resolves to CUSTOMER; any other claim resolves to the role with exactly that name, and the result is canonical |
| NavTypes.ResolveRoleName | components/layout/dashboard/nav-main.tsx:62 | resolving the name of a canonical role gives that role back |
| NavTypes.RoleNameInjective | components/layout/dashboard/nav-main.tsx:37-43 | two canonical roles are equal exactly when their names are |
| NavTypes.AdmitsByName | components/layout/dashboard/nav-main.tsx:586 | a canonical role is in a list of named roles exactly when some entry has the same name, as the string test of `includes` decides |
| NavTypes.Admits | components/layout/dashboard/nav-main.tsx:586-590 | definition: the visibility test `!roles \|\| roles.includes(userRole)` shared by sections and links; no contract of its own, see `NavTypes.AdmitsByName` and `NavFacts.CatalogAdmitsByName` |
| SeqFilter.Filter | components/layout/dashboard/nav-main.tsx:585-586 | definition: `Array.prototype.filter`; no contract of its own, see `SeqFilter.FilterMembers` and `SeqFilter.FilterCharacterized` |
| SeqFilter.Map | components/layout/dashboard/nav-main.tsx:587-592 | definition: `Array.prototype.map`; no contract of its own, see `NavMain.FilterItemsByRoleIsFilterThenMap` |
| SeqFilter.FilterMembers | components/layout/dashboard/nav-main.tsx:585-586 | filtering never lengthens, keeps only elements that pass the test, and keeps every element that does |
| SeqFilter.FilterCharacterized | components/layout/dashboard/nav-main.tsx:585-586 | a sequence is the filter of `s` by `p` exactly when it is `s` with every failing element removed and the rest in their original order |
| SeqFilter.FilterIsSubsequence | components/layout/dashboard/nav-main.tsx:585-586 | a filter's result is a subsequence of its input |
| SeqFilter.FilterIdempotent | components/layout/dashboard/nav-main.tsx:585-586 | filtering twice by the same test is filtering once |
| SeqFilter.FilterKeepsAll | components/layout/dashboard/nav-main.tsx:585-586 | when every element passes, the filter returns its input |
| SeqFilter.FilterKeepsNone | components/layout/dashboard/nav-main.tsx:585-586 | when no element passes, the filter returns the empty sequence |
| NavMain.VisibleSubItems | components/layout/dashboard/nav-main.tsx:589-591 | definition: the link filter of one section; no contract of its own, see `NavMain.VisibleSubItemsIsFilter` |
| NavMain.FilterItemsByRole | components/layout/dashboard/nav-main.tsx:584-593 | definition: `filterItemsByRole`; no contract of its own, see `NavMain.FilterItemsByRoleIsFilterThenMap`, `NavMain.FilterItemsByRoleCharacterized` and `NavMain.FilterItemsByRoleKeepsExactly` |
| NavMain.VisibleSubItemsIsFilter | components/layout/dashboard/nav-main.tsx:589-591 | the link filter of a section is `filter` with the visibility test on links |
| NavMain.FilterItemsByRoleIsFilterThenMap | components/layout/dashboard/nav-main.tsx:584-593 | filtering by role is: filter the sections by visibility, then map each to a copy whose links are filtered by visibility |
| NavMain.FilterItemsByRoleShown | components/layout/dashboard/nav-main.tsx:584-593 | the result is no longer than the input, and every section in it, with every link it keeps, admits the role |
| NavMain.FilterItemsByRoleCharacterized | components/layout/dashboard/nav-main.tsx:584-593 | a list is the role filtering of a catalog exactly when it holds the admitted sections in catalog order, each with title, url, icon, expansion flag and role list unchanged and its links reduced to the admitted ones in order |
| NavMain.FilterItemsByRoleKeepsExactly | components/layout/dashboard/nav-main.tsx:584-593 | a catalog section appears in the result, trimmed, if and only if its role list is absent or names the role; nothing else appears |
| NavMain.FilterItemsByRoleIdempotent | components/layout/dashboard/nav-main.tsx:584-593 | filtering an already filtered list by the same role changes nothing |
| NavMain.SidebarLabel | components/layout/dashboard/nav-main.tsx:596-609 | the label is "Admin Console", "Management", "Vendor Portal" or "Customer Service" exactly for ADMIN, MANAGER, VENDOR or CUSTOMER_SERVICE, and "Shopping" exactly for every other role |
| NavMain.ServiceAdminSection | components/layout/dashboard/nav-main.tsx:641-645 | definition: the title test that picks Customer Management and Order Management; no contract of its own, see `NavFacts.ServiceAdminSections` |
| NavMain.SwitchSections | components/layout/dashboard/nav-main.tsx:615-653 | definition: the role switch over the four catalogs; no contract of its own, see `NavMain.SwitchSectionsShown` and the per-role lemmas in `NavFacts` |
| NavMain.RoleSections | components/layout/dashboard/nav-main.tsx:615-653 | definition: the switch applied to the catalogs as the role sees them; no contract of its own, see `NavMain.RoleSectionsShown` |
| NavMain.RoleSectionsShown | components/layout/dashboard/nav-main.tsx:615-653 | every section the switch selects for a role, with its links, admits that role |
| NavMain.AssembleNavItems | components/layout/dashboard/nav-main.tsx:612-653 | definition: `navItems`; no contract of its own, see `NavMain.AssembleNavItemsShape` and the per-role lemmas in `NavFacts` |
| NavMain.NavMain | components/layout/dashboard/nav-main.tsx:60-62 | definition: resolves the session's role claim and pairs the header label shown at line 657 with the section list; no contract of its own, see `NavFacts.MissingRoleLikeCustomer`, `NavMain.SidebarLabel` and the per-role lemmas in `NavFacts` |
| NavMain.SwitchSectionsShown | components/layout/dashboard/nav-main.tsx:615-653 | whatever the catalogs hold, every section the switch selects for a role, with its links, admits that role |
| NavMain.AssembleNavItemsShape | components/layout/dashboard/nav-main.tsx:612-653 | for every role, the list ends with the account entry with all seven links, and every section before it, with its links, admits the role |
| NavCatalog.ShoppingNavItems | components/layout/dashboard/nav-main.tsx:65-187 | definition: the shopping catalog, transcribed; no contract of its own, see `NavFacts.ShoppingRoleListsNamed` and the per-role lemmas |
| NavCatalog.AdminNavItems | components/layout/dashboard/nav-main.tsx:190-343 | definition: the admin catalog, transcribed; no contract of its own, see `NavFacts.AdminRoleListsNamed` and the per-role lemmas |
| NavCatalog.VendorNavItems | components/layout/dashboard/nav-main.tsx:346-440 | definition: the vendor catalog, transcribed; no contract of its own, see `NavFacts.VendorRoleListsNamed` and `NavFacts.VendorSidebar` |
| NavCatalog.CustomerServiceNavItems | components/layout/dashboard/nav-main.tsx:443-533 | definition: the customer service catalog, transcribed; no contract of its own, see `NavFacts.ServiceRoleListsNamed` and `NavFacts.CustomerServiceSidebar` |
| NavCatalog.AccountSettingsItem | components/layout/dashboard/nav-main.tsx:536-581 | definition: the account entry, transcribed; no contract of its own, see `NavFacts.AccountRoleListsNamed` and `NavFacts.WishlistShownToEveryRole` |
| NavFacts.ShoppingRoleListsNamed | components/layout/dashboard/nav-main.tsx:65-187 | every section and link role list of the shopping catalog names only the six named roles |
| NavFacts.AdminRoleListsNamed | components/layout/dashboard/nav-main.tsx:190-343 | every section and link role list of the admin catalog names only the six named roles |
| NavFacts.VendorRoleListsNamed | components/layout/dashboard/nav-main.tsx:346-440 | every section and link role list of the vendor catalog names only the six named roles |
| NavFacts.ServiceRoleListsNamed | components/layout/dashboard/nav-main.tsx:443-533 | every section and link role list of the customer service catalog names only the six named roles |
| NavFacts.AccountRoleListsNamed | components/layout/dashboard/nav-main.tsx:536-581 | every role list of the account entry and its links names only the six named roles |
| NavFacts.CatalogAdmitsByName | components/layout/dashboard/nav-main.tsx:586-590 | for a catalog written with named roles and a canonical role, each section and link passes the model's membership test exactly when it passes the source's string test `includes(userRole)` |
| NavFacts.OutlineOfFilter | components/layout/dashboard/nav-main.tsx:584-593 | filtering by role keeps each admitted section's title and expansion flag, in catalog order |
| NavFacts.ServiceAdminSections | components/layout/dashboard/nav-main.tsx:641-645 | the title test picks exactly the Customer Management and Order Management sections of the admin catalog |
| NavFacts.AdminSidebar | components/layout/dashboard/nav-main.tsx:616-622 | ADMIN is shown all six admin sections with Dashboard expanded, then Shop, Categories Management, Promotions, then Account |
| NavFacts.ManagerSidebar | components/layout/dashboard/nav-main.tsx:623-629 | MANAGER is shown the same sections as ADMIN, with no section expanded |
| NavFacts.VendorSidebar | components/layout/dashboard/nav-main.tsx:630-636 | VENDOR is shown Vendor Dashboard expanded, My Products, Orders, Shipping, then Shop, Promotions, then Account |
| NavFacts.CustomerServiceSidebar | components/layout/dashboard/nav-main.tsx:637-650 | CUSTOMER_SERVICE is shown the four service sections with Service Dashboard expanded, then Customer Management and Order Management, then Shop, Categories Management, Promotions, then Account |
| NavFacts.UserSidebar | components/layout/dashboard/nav-main.tsx:651-652 | USER is shown My Orders expanded, Support, then Account |
| NavFacts.CustomerSidebar | components/layout/dashboard/nav-main.tsx:651-652 | CUSTOMER is shown My Orders expanded, Support, then Account |
| NavFacts.MissingRoleLikeCustomer | components/layout/dashboard/nav-main.tsx:62 | a session without a role, or with an empty one, gets exactly the sidebar of CUSTOMER |
| NavFacts.UnknownRoleSidebar | components/layout/dashboard/nav-main.tsx:651-652 | a role outside the six named ones is shown the account entry and nothing else |
| NavFacts.FilterItemsByRoleAlike | components/layout/dashboard/nav-main.tsx:584-593 | two roles that every section and link role list treats alike get the same filtered list |
| NavFacts.UserLikeCustomer | components/layout/dashboard/nav-main.tsx:65-187 | USER and CUSTOMER are shown exactly the same sections, links and expansion flags |
| NavFacts.WishlistShownToEveryRole | components/layout/dashboard/nav-main.tsx:536-581 | every role's sidebar ends with the account entry, whose third link is Wishlist, although that link's role list admits only USER and CUSTOMER, because the account entry is appended unfiltered |

## Left out

- The rendering of the list is not modelled: the collapsible tree, tooltips and link elements (nav-main.tsx:655-694). The only part kept is that a section starts expanded when `isActive` is true.
- The session lookup `auth()` is not modelled. Its result enters as the role claim `Option<string>`, which is `None` when there is no session, user or role.
- A role claim that is not a string at run time is not modelled.
- Icons are kept by name only, and URLs are opaque strings.
- components/layout/dashboard/app-sidebar.tsx is not part of this model.
- The per-role lemmas in `nav_facts.dfy` list section titles and expansion flags only. The links each section keeps for a role are constrained by the general filter lemmas, not listed role by role.
