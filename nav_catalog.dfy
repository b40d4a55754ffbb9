/**
  The five navigation catalogs, as literal data. Icons are kept by name and
  URLs as opaque strings. A catalog whose `isActive` flag depends on the role
  is a function of the role; the account entry is a constant.
*/
module NavCatalog {
  import opened Wrappers
  import opened NavTypes

  /** Shopping sections, mainly for customers. */
  function ShoppingNavItems(role: Role): seq<NavItem>
  {
    [
      NavItem("Shop", "/shop", ShoppingCart, None,
        Some([Admin, Manager, Vendor, CustomerService]),
        [
          SubItem("My Shop", "/dashboard/vendor/my-shop", Some([Vendor])),
          SubItem("All Products", "/shop/all", None),
          SubItem("New Arrivals", "/shop/new", None),
          SubItem("Featured", "/shop/featured", None),
          SubItem("Best Sellers", "/shop/best-sellers", None)
        ]),
      NavItem("Categories Management", "/categories", Tag, None,
        Some([Admin, Manager, CustomerService]),
        [
          SubItem("Category list", "/dashboard/admin/category/all", Some([Admin, Manager, CustomerService])),
          SubItem("Add Category", "/dashboard/admin/category/add", Some([Admin, Manager, CustomerService]))
        ]),
      NavItem("My Orders", "/orders", Package, Some(role == Customer || role == User),
        Some([User, Customer]),
        [
          SubItem("Pending Orders", "/dashboard/customer/orders?status=PENDING", None),
          SubItem("Processing Orders", "/dashboard/customer/orders?status=PROCESSING", None),
          SubItem("Shipped Orders", "/dashboard/customer/orders?status=SHIPPED", None),
          SubItem("Order History", "/dashboard/customer/orders", None)
        ]),
      NavItem("Promotions", "/promotions", BadgePercent, None,
        Some([Admin, Manager, Vendor, CustomerService]),
        [
          SubItem("Current Deals", "/promotions/deals", None),
          SubItem("Clearance", "/promotions/clearance", None),
          SubItem("Seasonal", "/promotions/seasonal", None),
          SubItem("Loyalty Rewards", "/promotions/loyalty", None)
        ]),
      NavItem("Support", "/support", HelpCircle, None,
        Some([User, Customer]),
        [
          SubItem("Help Center", "/support/help", None),
          SubItem("Contact Us", "/support/contact", None),
          SubItem("Submit Ticket", "/support/ticket", None),
          SubItem("FAQs", "/support/faq", None)
        ])
    ]
  }

  /** Administration sections. */
  function AdminNavItems(role: Role): seq<NavItem>
  {
    [
      NavItem("Dashboard", "/admin/dashboard", BarChart2, Some(role == Admin),
        Some([Admin, Manager]),
        [
          SubItem("Sales Overview", "/admin/dashboard/sales", None),
          SubItem("Inventory", "/admin/dashboard/inventory", None),
          SubItem("Analytics", "/admin/dashboard/analytics", None),
          SubItem("Financial Reports", "/admin/dashboard/financial", Some([Admin, Manager]))
        ]),
      NavItem("Product Management", "/admin/products", Package, None,
        Some([Admin, Manager, Vendor]),
        [
          SubItem("Product List", "/dashboard/admin/products/list", None),
          SubItem("Edit Products", "/admin/products/edit", None),
          SubItem("Categories", "/admin/products/categories", Some([Admin, Manager])),
          SubItem("Inventory", "/admin/products/inventory", None),
          SubItem("Bulk Upload", "/admin/products/bulk-upload", Some([Admin, Manager, Vendor]))
        ]),
      NavItem("Customer Management", "/admin/customers", Users, None,
        Some([Admin, Manager, CustomerService]),
        [
          SubItem("Customer List", "/dashboard/admin/customers/list", None),
          SubItem("Customer Reports", "/admin/customers/reports", Some([Admin, Manager])),
          SubItem("Support Tickets", "/admin/customers/tickets", Some([Admin, Manager, CustomerService])),
          SubItem("Customer Insights", "/admin/customers/insights", Some([Admin, Manager]))
        ]),
      NavItem("Order Management", "/dashboard/admin/orders", ShoppingCart, None,
        Some([Admin, Manager, CustomerService]),
        [
          SubItem("All Orders", "/dashboard/admin/orders", None),
          SubItem("Pending Orders", "/admin/orders/pending", None),
          SubItem("Processing Orders", "/admin/orders/processing", None),
          SubItem("Shipped Orders", "/admin/orders/shipped", None),
          SubItem("Returns & Refunds", "/admin/orders/returns", None)
        ]),
      NavItem("Vendor Management", "/admin/vendors", Store, None,
        Some([Admin, Manager]),
        [
          SubItem("Vendor List", "/dashboard/admin/vendors/list", None),
          SubItem("Vendor Applications", "/admin/vendors/applications", None),
          SubItem("Performance Metrics", "/admin/vendors/performance", None),
          SubItem("Payouts", "/admin/vendors/payouts", Some([Admin]))
        ]),
      NavItem("Banner Management", "/dashboard/admin/banner", Image, None,
        Some([Admin, Manager]),
        [
          SubItem("Add Banner", "/dashboard/admin/banner/add", None),
          SubItem("Banner List", "/dashboard/admin/banner/list", None)
        ])
    ]
  }

  /** Vendor sections. The "Orders" URL has no leading slash in the source; it is kept as written. */
  function VendorNavItems(role: Role): seq<NavItem>
  {
    [
      NavItem("Vendor Dashboard", "/vendor/dashboard", BarChart2, Some(role == Vendor),
        Some([Vendor]),
        [
          SubItem("Performance Overview", "/vendor/dashboard/overview", None),
          SubItem("Sales Analytics", "/vendor/dashboard/sales", None),
          SubItem("Inventory", "/vendor/dashboard/inventory", None),
          SubItem("Earnings", "/vendor/dashboard/earnings", None)
        ]),
      NavItem("My Products", "/vendor/products", ShoppingBag, None,
        Some([Vendor]),
        [
          SubItem("All Products", "/vendor/products/all", None),
          SubItem("Add Product", "/dashboard/vendor/products/add", None),
          SubItem("Bulk Upload", "/vendor/products/bulk-upload", None),
          SubItem("Product Reviews", "/vendor/products/reviews", None)
        ]),
      NavItem("Orders", "dashboard/vendor/orders/all", ClipboardList, None,
        Some([Vendor]),
        [
          SubItem("All Orders", "/dashboard/vendor/orders", None),
          SubItem("Processing", "/vendor/orders/processing", None),
          SubItem("Shipped", "/vendor/orders/shipped", None),
          SubItem("Returns", "/vendor/orders/returns", None)
        ]),
      NavItem("Shipping", "/vendor/shipping", Truck, None,
        Some([Vendor]),
        [
          SubItem("Shipping Settings", "/vendor/shipping/settings", None),
          SubItem("Print Labels", "/vendor/shipping/labels", None),
          SubItem("Track Shipments", "/vendor/shipping/track", None)
        ])
    ]
  }

  /** Customer service sections. */
  function CustomerServiceNavItems(role: Role): seq<NavItem>
  {
    [
      NavItem("Service Dashboard", "/service/dashboard", BarChart2, Some(role == CustomerService),
        Some([CustomerService]),
        [
          SubItem("Overview", "/service/dashboard/overview", None),
          SubItem("Active Tickets", "/service/dashboard/tickets", None),
          SubItem("Performance Metrics", "/service/dashboard/metrics", None)
        ]),
      NavItem("Customer Support", "/service/support", MessageSquare, None,
        Some([CustomerService]),
        [
          SubItem("Open Tickets", "/service/support/open", None),
          SubItem("Pending Tickets", "/service/support/pending", None),
          SubItem("Resolved Tickets", "/service/support/resolved", None),
          SubItem("Create Ticket", "/service/support/create", None)
        ]),
      NavItem("Order Assistance", "/service/orders", ClipboardList, None,
        Some([CustomerService]),
        [
          SubItem("Track Orders", "/service/orders/track", None),
          SubItem("Process Returns", "/service/orders/returns", None),
          SubItem("Modify Orders", "/service/orders/modify", None)
        ]),
      NavItem("Knowledge Base", "/service/knowledgebase", FileText, None,
        Some([CustomerService]),
        [
          SubItem("Product Info", "/service/knowledgebase/products", None),
          SubItem("Policies", "/service/knowledgebase/policies", None),
          SubItem("Common Issues", "/service/knowledgebase/issues", None),
          SubItem("FAQ Templates", "/service/knowledgebase/faq", None)
        ])
    ]
  }

  /** The account entry, meant for every role, with some links restricted to some roles. */
  const AccountSettingsItem: NavItem :=
    NavItem("Account", "/dashboard/profile", Settings, None,
      Some([Admin, Manager, Vendor, CustomerService, User, Customer]),
      [
        SubItem("Profile", "/dashboard/profile", None),
        SubItem("Addresses", "/dashboard/profile/addresses", Some([User, Customer, Vendor])),
        SubItem("Wishlist", "/dashboard/customer/wishlist", Some([User, Customer])),
        SubItem("Notifications", "/account/notifications", None),
        SubItem("Message", "/message", None),
        SubItem("Vouchers", "/account/vouchers", None),
        SubItem("My Review", "/dashboard/customer/reviews", None)
      ])
}
