# CapeTownTukTuk marketplace logic in Dafny

CapeTownTukTuk is a marketplace for Cape Town. Customers order from local vendors, vendors
manage products and orders, drivers deliver, and administrators approve vendors and settle the
ledger. The application is a React front end over a hosted database. This project models the
in-memory logic that runs between the rows the front end fetches and the writes it issues, and
proves what that logic promises.

What is modelled, one Dafny module per source file (plus shared helpers):

- **Rows and enumerations** (`Schema`): profiles, businesses, products, orders, order items
  and ledger rows, with their closed enumerations. Also the start-up check on the two
  connection parameters.
- **Cart** (`Cart`, `CartPage`): the cart hook is a class whose `items` sequence the add,
  remove, update and clear methods replace. Each method is specified by a pure function of the
  old list. The proved properties include unique product ids, "nothing else changes" and the
  totals. The cart page groups lines per vendor and shows one R25.00 fee.
- **Checkout** (`Checkout`): one order per vendor, each costing its subtotal plus R25. Each
  order line snapshots the product's price. Every attempt settles, then the cart is cleared.
- **Vendor order workflow** (`OrdersTab`): the guarded status transitions
  Pending → Confirmed → Preparing → Ready_for_Pickup, the status filter tabs and the counters
  above them.
- **Ledger** (`Accounting`, `Transactions`, `Payout`): per-vendor revenue, payouts, balance
  and transaction count, plus the platform totals. The payout form checks the amount and then
  appends one VendorPayout row.
- **CSV product upload** (`BulkUpload`, `CsvTemplate`, `BulkInsert`): the line-by-line parser,
  what it makes of the modal's own template, the category lookup or creation, and the product
  rows inserted.
- **Analytics** (`Analytics`, `VendorAnalytics`, `PlatformAnalytics`, with `Grouping` and
  `Sorting`): totals, average order value, growth, group-bys per product, business or day, and
  the top five by revenue.
- **Search and filters** (`AdminDashboard`, `VendorDashboard`, `BusinessPage`,
  `BrowseVendors`): case-insensitive substring search combined with status, availability or
  category filters.
- **Small state machines and decisions** (`VendorRegister`, `ApprovalModal`, `AuthGuard`,
  `DashboardRouter`, `LoginForm`, `Header`, `Welcome`).

Conventions:

- Every backend reply (query result, insert error, session, profile, new row id) is a
  parameter of the operation that awaits it.
- Money is a `real`; quantities are integers.
- An order's `created_at` appears only as its UTC day number. The code uses it only through
  its `YYYY-MM-DD` key, and sorting those keys with `localeCompare` orders them by day.
- JavaScript's `reduce`/`filter`, its string built-ins (`Text`) and the
  insertion-ordered `Record` group-by idiom (`Grouping`) are each defined once and shared.
- A record keyed by names taken from the data is built with
  `if (!record[k]) record[k] = init`. For a key that `Object.prototype` already answers
  (`"constructor"`, `"toString"`, …), the initialisation is skipped. The update then lands on
  the inherited member, so the entry never appears. `Analytics.OwnKeyed` models this.

## Model

| member | source | states |
|---|---|---|
| Wrappers.OrNull | src/pages/auth/VendorRegisterPage.tsx:100-102 | an empty string is stored as null and any other string as itself (also the bulk upload's product rows) |
| Wrappers.MessageOr | src/pages/DashboardRouter.tsx:96 | an error's text falls back to the handler's fixed text: the stored error is never empty and is the error's own message whenever it has one (also the payout, bulk upload and vendor registration handlers) |
| AuthGuard.Guard | src/components/Auth/AuthGuard.tsx:12-25 | the spinner shows exactly while the auth state loads; a redirect to /login carrying the visited path happens exactly when there is no user or no profile; the page is granted exactly when a signed-in user's role is accepted |
| AuthGuard.AdminPassesEverywhere | src/components/Auth/AuthGuard.tsx:20-25 | a signed-in Admin is granted every route whatever role it requires |
| AuthGuard.WrongRoleToDashboard | src/components/Auth/AuthGuard.tsx:20-23 | a user whose role differs from the route's non-empty requirement is sent to /dashboard if and only if they are not an Admin |
| AuthGuard.RequirementOnlyNarrows | src/components/Auth/AuthGuard.tsx:16-25 | adding a role requirement to a route never grants access that the unrestricted route would refuse |
| Header.DashboardLink | src/components/Layout/Header.tsx:25-40 | no profile or an unknown role links to /dashboard; each of the four roles links to its own area (customers to /browse) |
| Header.DashboardLabel | src/components/Layout/Header.tsx:42-57 | no profile or an unknown role is labelled "Dashboard"; each role gets its own label |
| Header.LinkMatchesLabel | src/components/Layout/Header.tsx:25-57 | the generic label goes with the generic link and only with it, and two profiles with the same non-generic link have the same role |
| Welcome.DashboardLink | src/pages/WelcomePage.tsx:9-24 | no profile or an unknown role links to /, each role to its own area (customers to /customer) |
| Welcome.RoleMessage | src/pages/WelcomePage.tsx:26-41 | no profile or an unknown role gets the generic greeting |
| Welcome.GenericMessageLinksHome | src/pages/WelcomePage.tsx:9-41 | the generic greeting is shown if and only if the link goes back to / |
| Welcome.AgreesWithHeaderExceptCustomers | src/pages/WelcomePage.tsx:9-24 | for a known role this card's link equals the header's if and only if the role is not Customer |
| LoginForm.FromOf | src/components/Auth/LoginForm.tsx:19 | the return path is never empty and is the guard's pathname whenever that is non-empty |
| LoginForm.RedirectTarget | src/components/Auth/LoginForm.tsx:36-52 | Admin, Vendor and Driver go to their areas; customers and unknown roles go back where they came from, or to /browse from / |
| LoginForm.Redirect | src/components/Auth/LoginForm.tsx:29-55 | a redirect happens exactly when a user and a profile are loaded and nothing is loading, and it goes to the role's target |
| LoginForm.HomeLoginLandsOnHeaderLink | src/components/Auth/LoginForm.tsx:19-52 | signing in from the home page lands where the header's dashboard link points, for every known role |
| LoginForm.CustomersReturnWhereTheyWere | src/components/Auth/LoginForm.tsx:36-52 | a customer returns to the protected page that sent them, while staff always land on their own area |
| LoginForm.SignInForm.constructor | src/components/Auth/LoginForm.tsx:10-11 | the form starts not loading and with no error |
| LoginForm.SignInForm.HandleSubmit | src/components/Auth/LoginForm.tsx:57-80 | a reported error is shown as it is and stops the spinner; an exception shows its message or the fixed text and stops the spinner; a success clears the error and leaves the spinner on |
| LoginForm.SuccessBlocksRedirect | src/components/Auth/LoginForm.tsx:29-30 | with the spinner left on, the redirect effect never fires, whatever the user, profile and origin |
| LoginForm.SignInForm.HandleSubmitReleasing | src/components/Auth/LoginForm.tsx:57-80 | the same handler with the spinner released on success: the error cases are unchanged and after a sign-in the redirect fires for every role to that role's page or the origin |
| DashboardRouter.Classify | src/pages/DashboardRouter.tsx:31-101 | a role is kept exactly when no error is; a session error, a missing session, a profile error (not-found code versus any other), and a missing or empty role each store their fixed error and send to /login at once; an exception stores its message and schedules /login; otherwise the profile's role is kept |
| DashboardRouter.ErrorMessage | src/pages/DashboardRouter.tsx:134-141 | the error card's text for each known error, and `Error: ` followed by the error otherwise |
| DashboardRouter.SignInAgainOnlyForSessions | src/pages/DashboardRouter.tsx:134-141 | the card asks the user to sign in again if and only if the error is one of the two session errors |
| DashboardRouter.View | src/pages/DashboardRouter.tsx:125-217 | a non-empty error shows the error card, before the loading card; loading without error shows the loading card; the unknown-role card shows only for a missing or unknown role |
| DashboardRouter.SettledView | src/pages/DashboardRouter.tsx:31-217 | once initialisation has ended the page shows the error card if and only if it failed, and otherwise the page of the stored role (the marketplace for customers) |
| DashboardRouter.ProfileErrorsShown | src/pages/DashboardRouter.tsx:64-79 | a missing profile row reaches the user as "profile could not be found", every other profile error as "Error: Database error" |
| DashboardRouter.Router.constructor | src/pages/DashboardRouter.tsx:10-12 | the page starts loading, with no role, no error and no navigation |
| DashboardRouter.Router.Initialize | src/pages/DashboardRouter.tsx:18-105 | after `initializeDashboard` loading is off and the error, role, immediate navigation and scheduled navigation are those `Classify` gives |
| DashboardRouter.ErrorBeforeLoading | src/pages/DashboardRouter.tsx:125-173 | an error hides the loading card whether or not loading is still on, and without an error loading shows the loading card |
| Schema.RoleOf | src/lib/supabase.ts:29 | a role string is read as a role only when it is exactly that role's stored name |
| Schema.RoleNamesRoundTrip | src/lib/supabase.ts:29 | every role reads back as itself from its stored name |
| Schema.ApprovalOf | src/lib/supabase.ts:43 | an approval string is read as a status only when it is exactly that status's stored name |
| Schema.ApprovalNamesRoundTrip | src/lib/supabase.ts:43 | every approval status reads back as itself |
| Schema.StatusOf | src/lib/supabase.ts:77 | an order status string is read as a status only when it is exactly that status's stored name |
| Schema.StatusNamesRoundTrip | src/lib/supabase.ts:77 | every order status reads back as itself |
| Schema.PaymentMethodOf | src/lib/supabase.ts:80 | a payment method string is read only when it is exactly a method's stored name |
| Schema.PaymentMethodNamesRoundTrip | src/lib/supabase.ts:80 | every payment method reads back as itself |
| Schema.TransactionTypeOf | src/lib/supabase.ts:105 | a transaction type string is read only when it is exactly a type's stored name |
| Schema.TransactionTypeNamesRoundTrip | src/lib/supabase.ts:105 | every transaction type reads back as itself |
| Schema.PayoutStatusOf | src/lib/supabase.ts:107 | a payout status string is read only when it is exactly a status's stored name |
| Schema.PayoutStatusNamesRoundTrip | src/lib/supabase.ts:107 | every payout status reads back as itself |
| Schema.CreateClient | src/lib/supabase.ts:3-10 | start-up fails with "Missing Supabase environment variables" exactly when the URL or the anon key is missing or empty, and otherwise configures the client with those two values |
| Cart.Bumped | src/hooks/useCart.ts:34-38 | same length; the lines of the product have their quantity raised by the amount, every other line is unchanged |
| Cart.Requantified | src/hooks/useCart.ts:56-60 | same length; the lines of the product take the new quantity, every other line is unchanged |
| Cart.ItemQuantity | src/hooks/useCart.ts:64-67 | 0 when no line has the product, otherwise the quantity of the first line that has it |
| Cart.RequantifiedAbsent | src/hooks/useCart.ts:55-61 | setting the quantity of a product with no line leaves the cart unchanged |
| Cart.OnlyLineOf | src/hooks/useCart.ts:29-43 | in a cart without repeated products, a product's line is the only one with its id |
| Cart.BumpedTotals | src/hooks/useCart.ts:34-75 | raising the one line of a product raises the item count by the amount and the price total by the amount times that line's stored price |
| Cart.RequantifiedTotals | src/hooks/useCart.ts:56-75 | setting the one line of a product moves the item count and the price total by that line's change alone |
| Cart.AddExisting | src/hooks/useCart.ts:29-38 | adding a product already in the cart raises that line's quantity, keeps its stored product and every other line, and grows both totals accordingly |
| Cart.AddNew | src/hooks/useCart.ts:39-41 | adding a product not in the cart appends exactly one line at the end, whose quantity is the added one, and grows both totals by it |
| Cart.RemoveDropsProduct | src/hooks/useCart.ts:45-47 | after removal no line has the product, every other line is kept and nothing new appears; removing an absent product changes nothing |
| Cart.RemoveTotals | src/hooks/useCart.ts:45-75 | removing a present product shortens the cart by one line and takes that line's quantity and amount off the totals |
| Cart.UpdateNonPositiveRemoves | src/hooks/useCart.ts:49-53 | a quantity of zero or less is exactly a removal |
| Cart.UpdatePositive | src/hooks/useCart.ts:55-61 | a positive quantity is set on the product's line, every product and every other quantity is kept, and an absent product changes nothing |
| Cart.UpdatePositiveTotals | src/hooks/useCart.ts:55-75 | the totals after a positive update move by the product's line alone |
| Cart.ClearedTotals | src/hooks/useCart.ts:77-79 | an empty cart has no items, costs nothing and holds no quantity of any product |
| Cart.TotalItems | src/hooks/useCart.ts:69-71 | when every line holds at least one unit, the item count is at least the number of lines |
| Cart.TotalPrice | src/hooks/useCart.ts:73-75 | when no price and no quantity is negative, the price total is not negative |
| Cart.AddedKeepsIdsUnique | src/hooks/useCart.ts:29-43 | adding keeps every product on at most one line |
| Cart.RemovedKeepsIdsUnique | src/hooks/useCart.ts:45-47 | removing keeps every product on at most one line |
| Cart.UpdatedKeepsIdsUnique | src/hooks/useCart.ts:49-62 | updating keeps every product on at most one line |
| Cart.ShoppingCart.constructor | src/hooks/useCart.ts:10 | the cart starts empty |
| Cart.ShoppingCart.AddToCart | src/hooks/useCart.ts:29-43 | the new lines are `Added` of the old ones, and unique product lines stay unique |
| Cart.ShoppingCart.RemoveFromCart | src/hooks/useCart.ts:45-47 | the new lines are `Removed` of the old ones, and unique product lines stay unique |
| Cart.ShoppingCart.UpdateQuantity | src/hooks/useCart.ts:49-62 | the new lines are `Updated` of the old ones (removal at zero or less), and unique product lines stay unique |
| Cart.ShoppingCart.ClearCart | src/hooks/useCart.ts:77-79 | the cart is emptied |
| CartPage.Sections | src/components/Customer/CartPage.tsx:33-43 | one section per vendor in the cart |
| CartPage.RenderCart | src/components/Customer/CartPage.tsx:10-148 | an empty cart renders the empty state; otherwise the per-vendor sections, the item count, the subtotal, the R25.00 fee and subtotal plus fee |
| CartPage.SectionsPartitionCart | src/components/Customer/CartPage.tsx:33-43 | every line lies in its own vendor's section and in no other |
| CartPage.SectionKeepsCartOrder | src/components/Customer/CartPage.tsx:33-43 | a section lists exactly its vendor's lines, each once, in cart order |
| CartPage.MinusAtOneRemoves | src/components/Customer/CartPage.tsx:101-106 | the minus button on a line of quantity 1 removes the line |
| CartPage.PlusAddsOne | src/components/Customer/CartPage.tsx:108-113 | the plus button raises that line by one, leaves every other line alone and raises the item count by one |
| Checkout.Snapshots | src/components/Customer/CheckoutPage.tsx:32-37 | one order line per cart line, in order, each with the line's product id, quantity and current price |
| Checkout.VendorOrders | src/components/Customer/CheckoutPage.tsx:6-18 | one order per vendor in the cart |
| Checkout.SettleAll | src/components/Customer/CheckoutPage.tsx:15-45 | one settled outcome per order, each attempt settling on its own: rejected by the order insert's error, else by the items insert's error, else fulfilled with the order's id |
| Checkout.CheckoutPage.constructor | src/components/Customer/CheckoutPage.tsx:4 | the page starts not loading and with no outcomes |
| Checkout.CheckoutPage.PlaceOrder | src/components/Customer/CheckoutPage.tsx:2-56 | the outcomes are the settlements of one attempt per vendor order of the cart as it was; they are handed to the confirmation page; the cart is cleared whatever happened and loading ends off |
| Checkout.OneOrderPerVendor | src/components/Customer/CheckoutPage.tsx:6-15 | every cart line's vendor receives an order, and no vendor receives two |
| Checkout.SnapshotsValue | src/components/Customer/CheckoutPage.tsx:17-37 | the order lines are worth, at their purchase prices, what the cart lines cost |
| Checkout.OrderTotalIsLinesPlusFee | src/components/Customer/CheckoutPage.tsx:16-37 | each order's total is the value of its lines at purchase price plus R25, and its lines are exactly that vendor's cart lines with their current prices |
| Checkout.SumLessFee | src/components/Customer/CheckoutPage.tsx:18 | the orders' totals add up to their subtotals plus R25 per order |
| Checkout.CheckoutCharges | src/components/Customer/CheckoutPage.tsx:6-18 | checkout charges in all the cart's price plus R25 per vendor |
| Checkout.DisplayedTotalUnderstatesCharge | src/components/Customer/CartPage.tsx:140-148 | with two or more vendors the cart page's total is below what checkout charges, by R25 per vendor after the first |
| Checkout.ChargedTotalMatchesCheckout | src/components/Customer/CheckoutPage.tsx:18 | the corrected cart total equals what checkout charges for every cart, and equals the displayed total when the cart has one vendor |
| Checkout.DisplayedTotal | src/components/Customer/CartPage.tsx:140-148 | as written, the total the cart page shows equals what checkout charges when the cart has a single vendor |
| Checkout.ChargedTotal | src/components/Customer/CheckoutPage.tsx:6-18 | the corrected cart total is what checkout charges over the per-vendor orders it creates |
| BusinessPage.Categories | src/components/Customer/BusinessPage.tsx:51 | each non-empty category name of the products exactly once, and exactly the names some product has |
| BusinessPage.CategoriesInFirstSeenOrder | src/components/Customer/BusinessPage.tsx:51 | the tabs list categories in the order of their first appearance among the products |
| BusinessPage.FilteredProducts | src/components/Customer/BusinessPage.tsx:52-54 | no selection lists every product; a selection lists exactly the products of that category |
| BusinessPage.CategoryKeepsProductOrder | src/components/Customer/BusinessPage.tsx:52-54 | two products of the selected category are listed in the order the menu has them |
| BusinessPage.ListedCategoryIsNonEmpty | src/components/Customer/BusinessPage.tsx:51-54 | choosing any tab shown lists at least one product |
| BusinessPage.ControlFor | src/components/Customer/BusinessPage.tsx:203-221 | "Add to Cart" shows exactly at quantity 0; otherwise the stepper asks for one less and one more |
| BusinessPage.AddButtonAddsOne | src/components/Customer/BusinessPage.tsx:203-205 | a product not in the cart shows "Add to Cart", which appends one line of quantity 1 |
| BusinessPage.MinusAtOneRemoves | src/components/Customer/BusinessPage.tsx:214 | at quantity 1 the minus button takes the product out of the cart |
| BrowseVendors.BusinessesAfterFetch | src/components/Customer/BrowseVendors.tsx:16-31 | a failed fetch keeps the list as it was; a successful one replaces it by the rows, or by the empty list when there are none |
| BrowseVendors.FilteredBusinesses | src/components/Customer/BrowseVendors.tsx:33-36 | exactly the fetched businesses whose name, or present description, contains the search term ignoring case |
| BrowseVendors.CategoryIgnored | src/components/Customer/BrowseVendors.tsx:10-36 | the selected category never changes the list |
| BrowseVendors.EmptySearchListsAll | src/components/Customer/BrowseVendors.tsx:33-36 | an empty search lists every fetched business in the fetched order |
| BrowseVendors.ListedInFetchedOrder | src/components/Customer/BrowseVendors.tsx:33-36 | two listed businesses keep their fetched (name) order |
| BrowseVendors.CaseIgnored | src/components/Customer/BrowseVendors.tsx:34 | a business whose name contains the term in another letter case is still listed for the upper-cased term |
| Text.Trim | src/components/Vendor/BulkUploadModal.tsx:43 | `trim()` yields a piece of the string that neither starts nor ends with white space and holds no character the string lacks |
| Text.TrimKeeps | src/components/Vendor/BulkUploadModal.tsx:61 | a string without white space at either end is its own trim |
| Text.ToLower | src/components/Customer/BrowseVendors.tsx:34-35 | `toLowerCase()` keeps the length and lower-cases each character in place |
| Text.LowerCaseKept | src/components/Vendor/BulkUploadModal.tsx:51 | a string without capital letters is its own lower case |
| Text.ToUpper | src/components/Customer/BrowseVendors.tsx:34 | `toUpperCase()` keeps the length and upper-cases each character in place |
| Text.LowerOfUpper | src/components/Customer/BrowseVendors.tsx:34-35 | lower-casing an upper-cased string gives the lower case of the original, so the search is blind to case |
| Text.EmptySearchMatches | src/components/Customer/BrowseVendors.tsx:34 | every string contains the empty search term |
| Text.RemoveAll | src/components/Vendor/BulkUploadModal.tsx:61 | `replace(/"/g, '')` leaves no quote, never lengthens, and keeps every other character |
| Text.RemoveAllAbsent | src/components/Vendor/BulkUploadModal.tsx:61 | removing a character the string lacks changes nothing |
| Text.RemoveAllConcat | src/components/Vendor/BulkUploadModal.tsx:61 | removing quotes from a concatenation removes them from each part |
| Text.Unquote | src/components/Vendor/BulkUploadModal.tsx:61 | stripping the quotes around a quote-free cell gives the cell's text back |
| Text.ReplaceFirst | src/components/Vendor/OrdersTab.tsx:110 | `replace('_', '')` removes the first occurrence of the character, keeping everything before and after it, and changes nothing when the character is absent |
| Text.Split | src/components/Vendor/BulkUploadModal.tsx:43-61 | `split` yields at least one piece and no piece contains the separator |
| Text.JoinAvoids | src/components/Vendor/BulkUploadModal.tsx:28-31 | a character in none of the pieces and unlike the separator is not in their join |
| Text.SplitJoin | src/components/Vendor/BulkUploadModal.tsx:43-61 | splitting a join of separator-free pieces gives the pieces back |
| Text.JoinSplit | src/components/Vendor/BulkUploadModal.tsx:43-61 | joining the pieces of a split gives the string back |
| Text.SplitCount | src/components/Vendor/BulkUploadModal.tsx:61-62 | a split has one more piece than the string has separators |
| Text.ParseUnsigned | src/components/Vendor/BulkUploadModal.tsx:70 | an unsigned numeral's value is never negative |
| Text.FractionValue | src/components/Vendor/BulkUploadModal.tsx:70 | the digits after a decimal point are worth less than one |
| Text.ParseFloatPositive | src/components/Vendor/BulkUploadModal.tsx:70-78 | a string that starts with a non-zero digit parses to a positive number |
| Text.ParseFloat | src/components/Admin/PayoutModal.tsx:20 | `parseFloat` gives a negative number only after a leading minus sign, and after one never a positive number |
| Folds.Filter | src/hooks/useCart.ts:46 | `filter` keeps exactly the elements satisfying the test and never lengthens |
| Folds.SumConcat | src/hooks/useCart.ts:74 | the sum `reduce` over two runs is the sum over each, added |
| Folds.SumIntConcat | src/hooks/useCart.ts:70 | the count `reduce` over two runs is the count over each, added |
| Folds.SumIntAtLeastCount | src/hooks/useCart.ts:70 | counts of at least one each add up to at least the number of elements |
| Folds.SumNonNegative | src/hooks/useCart.ts:74 | amounts that are never negative add up to an amount that is not negative |
| Folds.FlatMapConcat | src/components/Vendor/BulkUploadModal.tsx:60-81 | collecting rows line by line over two runs of lines is collecting over each and concatenating |
| Folds.SumReplaceOne | src/hooks/useCart.ts:74 | replacing one term of a sum changes it by the difference of the two terms |
| Folds.SumIntReplaceOne | src/hooks/useCart.ts:70 | replacing one term of a count changes it by the difference of the two terms |
| Folds.SumPermutation | src/components/Admin/BusinessTransactionsModal.tsx:54-58 | a sum does not depend on the order of its terms |
| Folds.SumIntPermutation | src/components/Admin/PlatformAnalytics.tsx:351-363 | a count does not depend on the order of its terms |
| Folds.FilterConcat | src/hooks/useCart.ts:46 | filtering two runs is filtering each and concatenating |
| Folds.FilterAll | src/hooks/useCart.ts:46 | filtering by a test every element passes changes nothing |
| Folds.FilterCount | src/hooks/useCart.ts:46 | filtering keeps every copy of a passing element and no copy of any other |
| Folds.FilterPermutation | src/components/Admin/BusinessTransactionsModal.tsx:52-58 | filtering two orderings of the same elements gives two orderings of the same result |
| Folds.SameFilter | src/components/Vendor/OrdersTab.tsx:104-111 | two tests that agree on every element filter alike |
| Folds.Map | src/components/Customer/BusinessPage.tsx:51 | `map` keeps the length and maps each element in place |
| Folds.Distinct | src/components/Customer/BusinessPage.tsx:51 | `[...new Set(s)]` holds each element of `s` exactly once and nothing else |
| Folds.DistinctFirstOccurrence | src/components/Customer/BusinessPage.tsx:51 | a `Set` lists elements in the order of their first occurrence |
| Folds.FilterPosition | src/hooks/useCart.ts:46 | a kept element lands in the filtered sequence right after what was kept before it |
| Folds.FilterKeepsOrder | src/components/Customer/BrowseVendors.tsx:33-36 | two kept elements keep their relative order |
| Folds.FilteredDistinctOrder | src/components/Customer/BusinessPage.tsx:51 | filtering then removing repeats keeps first occurrences in order |
| Grouping.Keys | src/components/Customer/CartPage.tsx:33-43 | the record's keys are listed without repeats |
| Grouping.KeysAreKeysOfElements | src/components/Customer/CartPage.tsx:33-43 | a key is listed exactly when some input element has it |
| Grouping.Grouped | src/components/Customer/CartPage.tsx:33-43 | one group per distinct key |
| Grouping.GroupedKeys | src/components/Customer/CartPage.tsx:70 | the groups come in first-occurrence order of their keys, without repeated keys |
| Grouping.KeysCoverElements | src/components/Customer/CartPage.tsx:33-43 | every listed key belongs to some element, and every element's key is listed |
| Grouping.GroupedCoversKeys | src/components/Customer/CartPage.tsx:33-43 | there is a group for every element's key and for no other key |
| Grouping.MembersOfAbsentKey | src/components/Customer/CartPage.tsx:33-43 | a key no element has collects nothing |
| Grouping.GroupedSnocExisting | src/components/Customer/CartPage.tsx:35-41 | one more element whose key already has a group applies one more step to that group and leaves every other group alone |
| Grouping.GroupedSnocNew | src/components/Customer/CartPage.tsx:35-41 | one more element with a new key appends a group for it, started from the initial value, after all the others |
| Grouping.AddToGroups | src/components/Customer/CartPage.tsx:34-42 | one reduce step (`acc[k] ??= init; acc[k] = step(acc[k], x)`) turns the groups of the input so far into the groups of the input with one more element |
| Grouping.AddAllToGroups | src/components/Vendor/AnalyticsTab.tsx:71-78 | an inner `forEach` over a batch of further elements turns the groups of the input so far into the groups of the input with the batch appended |
| Grouping.GroupBy | src/components/Customer/CartPage.tsx:33-43 | the reduce over the whole input yields exactly `Grouped`: one group per distinct key in first-occurrence order, each folding its members in input order |
| Grouping.Partition | src/components/Vendor/AnalyticsTab.tsx:70-81 | summing an amount key by key over the distinct keys gives the amount summed over the whole input |
| Grouping.PartitionInt | src/components/Admin/PlatformAnalytics.tsx:117-127 | counting key by key over the distinct keys gives the count over the whole input |
| Grouping.GroupTotals | src/components/Vendor/AnalyticsTab.tsx:70-81 | when each group carries the amount of its members, the groups' figures add up to the input's total |
| Grouping.GroupIntTotals | src/components/Vendor/AnalyticsTab.tsx:70-81 | when each group carries the count of its members, the groups' counts add up to the input's count |
| Grouping.MembersHaveKey | src/components/Customer/CartPage.tsx:33-43 | a key's members are exactly the input elements with that key |
| Grouping.InExactlyOneGroup | src/components/Customer/CartPage.tsx:33-43 | each element's key is listed, and the element lies in that key's group and in no other |
| Grouping.FoldAppend | src/components/Customer/CartPage.tsx:41 | pushing each element in turn onto an empty list gives the elements back |
| Grouping.CollectedGroups | src/components/Customer/CartPage.tsx:36-41 | collecting with `push` gives each key exactly its members |
| Grouping.MembersKeepInputOrder | src/components/Customer/CartPage.tsx:41 | a key's members are the input elements with that key, each once, in input order |
| Grouping.ListedKeyHasMembers | src/components/Customer/CartPage.tsx:35-41 | a listed key has at least one member |
| Sorting.Insert | src/components/Vendor/AnalyticsTab.tsx:83 | inserting adds exactly the one element |
| Sorting.InsertSorted | src/components/Vendor/AnalyticsTab.tsx:83 | inserting into a list in rank order keeps it in rank order |
| Sorting.SortBy | src/components/Vendor/AnalyticsTab.tsx:83 | `sort` with a numeric comparator yields the same elements (a permutation) in ascending rank order |
| Sorting.Take | src/components/Vendor/AnalyticsTab.tsx:84 | `slice(0, n)` is a prefix of length n, or the whole list when it is shorter |
| Sorting.TopByRank | src/components/Vendor/AnalyticsTab.tsx:83-84 | the first n of a sorted list are drawn from the list, stay in rank order, and are exactly min(n, length) many |
| Sorting.LeftOutRanksNoLower | src/components/Vendor/AnalyticsTab.tsx:83-84 | an element left out of the first n ranks no lower than any element kept |
| Sorting.SortByStrict | src/components/Vendor/AnalyticsTab.tsx:99 | with pairwise different ranks the sorted list is strictly ascending |
| Sorting.SameRankSameElement | src/components/Vendor/AnalyticsTab.tsx:99 | with pairwise different ranks two elements of equal rank are the same element |
| Sorting.AtMostOnce | src/components/Vendor/AnalyticsTab.tsx:99 | with pairwise different ranks no element occurs twice |
| Analytics.PreviousRevenue | src/components/Vendor/AnalyticsTab.tsx:105-113 | a failed previous-period fetch counts as no revenue; otherwise it is the fetched orders' revenue |
| Analytics.AverageOrderValue | src/components/Vendor/AnalyticsTab.tsx:66 | 0 without orders; otherwise the value that, times the number of orders, gives the revenue |
| Analytics.Growth | src/components/Vendor/AnalyticsTab.tsx:114 | 0 without previous revenue; otherwise the percentage by which the previous revenue grew into the current revenue |
| Analytics.GrowthSign | src/components/Vendor/AnalyticsTab.tsx:114 | growth is positive exactly when revenue rose over a previous period with revenue, and negative exactly when it fell |
| Analytics.CountIsLength | src/components/Vendor/AnalyticsTab.tsx:93 | counting with `+= 1` over a list gives its length |
| Analytics.OwnKeyed | src/components/Vendor/AnalyticsTab.tsx:73-77 | the record keeps exactly the elements whose key is not a name `{}` already inherits |
| Analytics.OwnKeyedShorter | src/components/Vendor/AnalyticsTab.tsx:73-77 | one element under an inherited key is enough for the record to miss an element |
| Analytics.OwnGroupedKeys | src/components/Vendor/AnalyticsTab.tsx:73-77 | as written, the record gets an entry for the key of every element whose key is not inherited, and for no inherited key |
| Analytics.FilterShorter | src/components/Vendor/AnalyticsTab.tsx:73-77 | a filter that rejects one element is shorter than its input |
| Analytics.FoldTally | src/components/Vendor/AnalyticsTab.tsx:90-94 | the per-day updates folded over some orders count them and add up their revenue |
| Analytics.DailyRows | src/components/Vendor/AnalyticsTab.tsx:97-98 | one chart row per group, carrying its date, order count and revenue |
| Analytics.DistinctDays | src/components/Vendor/AnalyticsTab.tsx:97-98 | rows made from groups with distinct keys have distinct days |
| Analytics.DailyRowsDays | src/components/Vendor/AnalyticsTab.tsx:87-98 | before sorting, the rows carry the order days in first-occurrence order, each once |
| Analytics.DailyStatsOf | src/components/Vendor/AnalyticsTab.tsx:97-99 | the day map becomes one row per day on which an order was placed |
| Analytics.DailyStatsAreSums | src/components/Vendor/AnalyticsTab.tsx:87-94 | every row holds the number of orders of its day and the sum of their totals |
| Analytics.DailyStatsAscending | src/components/Vendor/AnalyticsTab.tsx:97-99 | the daily rows are strictly ascending by day |
| Analytics.SortedDayRanks | src/components/Vendor/AnalyticsTab.tsx:99 | sorting rows with distinct days by day makes their ranks strictly ascending |
| Analytics.SortedDays | src/components/Vendor/AnalyticsTab.tsx:99 | sorting rows with distinct days by day makes the days strictly ascending |
| Sorting.PermutedRanks | src/components/Vendor/AnalyticsTab.tsx:99 | reordering a list, as sorting does, keeps the set of ranks (days) its rows show, in both directions |
| Sorting.SortByStable | src/components/Vendor/AnalyticsTab.tsx:99 | sorting by a rank keeps the relative order of the rows that share a rank value |
| Sorting.InsertStable | src/components/Vendor/AnalyticsTab.tsx:99 | inserting one row into a sorted list keeps the relative order of the rows of each rank value |
| Analytics.DailyStatsDays | src/components/Vendor/AnalyticsTab.tsx:87-99 | the chart has a row for a day exactly when some order was placed on it |
| Analytics.DailyStatsTotals | src/components/Vendor/AnalyticsTab.tsx:87-99 | the daily counts add up to the number of orders and the daily revenues to the total revenue |
| VendorAnalytics.ItemsSnoc | src/components/Vendor/AnalyticsTab.tsx:70-71 | the items of one more order are the earlier items followed by that order's items |
| VendorAnalytics.CollectProductStats | src/components/Vendor/AnalyticsTab.tsx:69-79 | the product loop, in its corrected form (see Findings): one entry per product name, in first-sale order, folding that product's items |
| VendorAnalytics.FoldProductStats | src/components/Vendor/AnalyticsTab.tsx:76-77 | the per-item updates folded over some items give their total quantity and total revenue |
| VendorAnalytics.ProductStatsAreSums | src/components/Vendor/AnalyticsTab.tsx:69-79 | each product's entry holds the quantity and revenue of exactly that product's items |
| VendorAnalytics.ProductStatsTotals | src/components/Vendor/AnalyticsTab.tsx:69-79 | the entries' quantities add up to all quantities sold and their revenues to all the items' revenue |
| VendorAnalytics.ProductStatsKeys | src/components/Vendor/AnalyticsTab.tsx:69-79 | the corrected record has one entry per product name sold: no name twice, only names of sold items, and every sold item's name |
| VendorAnalytics.AnalyticsOf | src/components/Vendor/AnalyticsTab.tsx:64-123 | the period's order count and revenue, with the daily chart adding up to exactly those two figures |
| VendorAnalytics.EveryItemListed | src/components/Vendor/AnalyticsTab.tsx:72-77 | every item is counted in the entry of its product's name, and an item without a name is counted under 'Unknown Product' |
| VendorAnalytics.Entries | src/components/Vendor/AnalyticsTab.tsx:81-82 | one top-product row per entry, carrying its name, quantity and revenue |
| VendorAnalytics.TopProducts | src/components/Vendor/AnalyticsTab.tsx:81-84 | exactly five products (all of them when there are fewer), in descending revenue, drawn from the entries |
| VendorAnalytics.TopProductsBeatTheRest | src/components/Vendor/AnalyticsTab.tsx:83-84 | no product left out of the top five earned more than one that was kept |
| VendorAnalytics.AnalyticsPromises | src/components/Vendor/AnalyticsTab.tsx:64-123 | the stored figures, with the corrected product grouping: order count and revenue of the period, average and growth as defined, the top five products (all when fewer) by descending revenue, days strictly ascending and adding up to the totals |
| VendorAnalytics.AnalyticsFigures | src/components/Vendor/AnalyticsTab.tsx:64-84 | the stored average and growth as defined, and the top five products (all when fewer) by descending revenue |
| VendorAnalytics.AnalyticsDays | src/components/Vendor/AnalyticsTab.tsx:97-99 | the stored daily chart comes by strictly ascending day |
| VendorAnalytics.AnalyticsTab.constructor | src/components/Vendor/AnalyticsTab.tsx:28-29 | the tab starts loading with no figures |
| VendorAnalytics.AnalyticsTab.FetchAnalytics | src/components/Vendor/AnalyticsTab.tsx:35-130 | a failed fetch leaves the stored figures as they were; a successful one stores `AnalyticsOf` the orders, whose top products use the corrected grouping; loading ends off either way |
| VendorAnalytics.InheritedProductNameDropped | src/components/Vendor/AnalyticsTab.tsx:73-77 | as written, an item of a product named like an inherited property (e.g. "constructor") has no entry and is missing from the totals |
| VendorAnalytics.ProductStatsAsWrittenKeys | src/components/Vendor/AnalyticsTab.tsx:69-79 | as written, the record has one entry per sold product name that `{}` does not inherit, and none for an inherited name |
| VendorAnalytics.ConstructorIsInherited | src/components/Vendor/AnalyticsTab.tsx:73 | "constructor" is such a name |
| PlatformAnalytics.BusinessStatsTotals | src/components/Admin/PlatformAnalytics.tsx:100-108 | every order counts under exactly one business: the per-business order counts add up to the number of orders and the revenues to the total revenue |
| PlatformAnalytics.BusinessStatsKeys | src/components/Admin/PlatformAnalytics.tsx:100-108 | the corrected record has one entry per business name among the orders: no name twice, only names of orders' businesses, and every order's business name |
| PlatformAnalytics.BusinessStatsAreSums | src/components/Admin/PlatformAnalytics.tsx:100-108 | each business's entry holds the number and the revenue of exactly the orders under that business name |
| PlatformAnalytics.EveryOrderListed | src/components/Admin/PlatformAnalytics.tsx:101-107 | every order has an entry under its business's name, and an order whose business has no or an empty name is counted under 'Unknown' |
| PlatformAnalytics.BusinessEntries | src/components/Admin/PlatformAnalytics.tsx:110-111 | one top-business row per entry, carrying its name, revenue and order count |
| PlatformAnalytics.TopBusinesses | src/components/Admin/PlatformAnalytics.tsx:110-113 | exactly five businesses (all of them when there are fewer), in descending revenue, drawn from the entries |
| PlatformAnalytics.TopBusinessesBeatTheRest | src/components/Admin/PlatformAnalytics.tsx:112-113 | no business left out of the top five earned more than one that was kept |
| PlatformAnalytics.FoldUserCounts | src/components/Admin/PlatformAnalytics.tsx:119-124 | the per-user steps folded over some users count the customers, vendors and drivers among them |
| PlatformAnalytics.AddUser | src/components/Admin/PlatformAnalytics.tsx:122-124 | a customer adds one to the customers, a vendor to the vendors, a driver to the drivers, an admin to none |
| PlatformAnalytics.RolesPartitionUsers | src/components/Admin/PlatformAnalytics.tsx:122-124 | every user has exactly one of the four roles |
| PlatformAnalytics.GrowthRows | src/components/Admin/PlatformAnalytics.tsx:127-128 | one chart row per day entry, carrying its day and its three counts |
| PlatformAnalytics.UserGrowthOf | src/components/Admin/PlatformAnalytics.tsx:127-129 | the growth map becomes one chart row per distinct creation day |
| PlatformAnalytics.UserGrowthRowsAreCounts | src/components/Admin/PlatformAnalytics.tsx:116-125 | every row holds, for its day, the number of customers, of vendors and of drivers created on it |
| PlatformAnalytics.DistinctGrowthDays | src/components/Admin/PlatformAnalytics.tsx:127-128 | distinct day entries give rows of distinct dates |
| PlatformAnalytics.SortedGrowthRanks | src/components/Admin/PlatformAnalytics.tsx:129 | sorting rows of distinct dates by date leaves the ranks strictly ascending |
| PlatformAnalytics.SortedGrowthDays | src/components/Admin/PlatformAnalytics.tsx:129 | sorting rows of distinct dates by date leaves the dates strictly ascending |
| PlatformAnalytics.UserGrowthAscending | src/components/Admin/PlatformAnalytics.tsx:116-129 | the user-growth days strictly ascend |
| PlatformAnalytics.UserGrowthDays | src/components/Admin/PlatformAnalytics.tsx:117-121 | the chart has a row for a day exactly when some user, of any role, was created on it, so a day of admins only shows zeros |
| PlatformAnalytics.UserGrowthTotals | src/components/Admin/PlatformAnalytics.tsx:351-363 | the three column totals shown count exactly the customers, vendors and drivers, and together every user but the admins |
| PlatformAnalytics.MetricsPromises | src/components/Admin/PlatformAnalytics.tsx:79-156 | the stored metrics, with the corrected business grouping: totals, average and growth as defined, the top five businesses (all when fewer) by descending revenue, both charts by strictly ascending day, the daily orders and revenue adding up to the totals, and the growth columns missing only the admins |
| PlatformAnalytics.PlatformAnalyticsPage.constructor | src/components/Admin/PlatformAnalytics.tsx:31-32 | the page starts loading with no metrics |
| PlatformAnalytics.PlatformAnalyticsPage.FetchPlatformMetrics | src/components/Admin/PlatformAnalytics.tsx:39-163 | a failed orders, users or businesses fetch leaves the stored metrics as they were; otherwise `MetricsOf` the rows is stored, whose top businesses use the corrected grouping; loading ends off either way |
| PlatformAnalytics.InheritedBusinessNameDropped | src/components/Admin/PlatformAnalytics.tsx:103-105 | as written, an order of a business named like an inherited property (e.g. "toString") is under no entry and the per-business order counts fall short of the total |
| PlatformAnalytics.BusinessStatsAsWrittenKeys | src/components/Admin/PlatformAnalytics.tsx:100-108 | as written, the record has one entry per business name that `{}` does not inherit, and none for an inherited name |
| PlatformAnalytics.MetricsOf | src/components/Admin/PlatformAnalytics.tsx:79-156 | the period's order count and revenue, with the revenue-by-day chart adding up to exactly those two figures |
| PlatformAnalytics.MetricsFigures | src/components/Admin/PlatformAnalytics.tsx:79-113 | the stored totals, average and growth as defined, and the top five businesses (all when fewer) by descending revenue |
| PlatformAnalytics.MetricsCharts | src/components/Admin/PlatformAnalytics.tsx:116-145 | both charts by strictly ascending day, the daily orders and revenue adding up to the totals, the growth columns counting every user but the admins |
| PlatformAnalytics.ToStringIsInherited | src/components/Admin/PlatformAnalytics.tsx:103 | "toString" is such a name |
| OrdersTab.VendorNextStatus | src/components/Vendor/OrdersTab.tsx:285-310 | a button shows exactly for Pending, Confirmed and Preparing orders, and moves the order exactly one stage on |
| OrdersTab.VendorTransitionsAreTheThree | src/components/Vendor/OrdersTab.tsx:285-310 | the vendor's buttons trigger exactly Pending→Confirmed, Confirmed→Preparing and Preparing→Ready_for_Pickup |
| OrdersTab.UpdateOrderStatus | src/components/Vendor/OrdersTab.tsx:68-72 | the update changes the status of exactly the rows matching both the order id and the vendor, and nothing else |
| OrdersTab.UpdateScopedToVendor | src/components/Vendor/OrdersTab.tsx:71-72 | a row of another vendor is never changed, even one with the same id |
| OrdersTab.UpdateOutcome | src/components/Vendor/OrdersTab.tsx:66-80 | a store error is reported as 'Failed to update order status' and only then; otherwise the result is the table with the update applied |
| OrdersTab.ButtonAdvancesOneOrder | src/components/Vendor/OrdersTab.tsx:285-310 | with unique ids, pressing an order's button moves that order one stage on and changes no other row |
| OrdersTab.NormalizedStatusIsName | src/components/Vendor/OrdersTab.tsx:110 | lower-casing a status and dropping its first underscore gives, e.g., "readyfor_pickup" for Ready_for_Pickup |
| OrdersTab.KeyHasNoUnderscore | src/components/Vendor/OrdersTab.tsx:110 | `filter.replace('_', '')` leaves every tab key unchanged |
| OrdersTab.ShowsByName | src/components/Vendor/OrdersTab.tsx:108-111 | outside 'all', an order is shown exactly when its normalised status equals the tab's key |
| OrdersTab.NormalizedStatus | src/components/Vendor/OrdersTab.tsx:110 | the normalised status is the status's name lower-cased with its first underscore dropped |
| OrdersTab.FilteredOrders | src/components/Vendor/OrdersTab.tsx:108-111 | the tab lists exactly the orders the tab shows, and never more orders than there are |
| OrdersTab.TabShowsItsStatus | src/components/Vendor/OrdersTab.tsx:108-111 | each tab other than 'all' and 'ready' shows exactly the orders of the status it is named after |
| OrdersTab.ReadyTabShowsNone | src/components/Vendor/OrdersTab.tsx:110 | the 'ready' tab shows no order at all |
| OrdersTab.AllTabShowsEverything | src/components/Vendor/OrdersTab.tsx:109 | the 'all' tab lists every order, in order |
| OrdersTab.ReadyTabAlwaysEmpty | src/components/Vendor/OrdersTab.tsx:108-111 | the 'ready' tab's list is empty whatever the orders |
| OrdersTab.StatsSnoc | src/components/Vendor/OrdersTab.tsx:113-119 | one more order adds one to the total, and to pending, preparing (Confirmed or Preparing) and completed only by its status; only a Delivered order adds its total to revenue |
| OrdersTab.Stats | src/components/Vendor/OrdersTab.tsx:113-119 | the total is the number of orders, and each status counter lies between zero and that total |
| OrdersTab.CountersWithinTotal | src/components/Vendor/OrdersTab.tsx:114-117 | no order is counted by two counters: pending, preparing and completed together count at most all orders |
| OrdersTab.TabListsItsStatus | src/components/Vendor/OrdersTab.tsx:108-111 | a status tab lists exactly the orders of its status, in order |
| OrdersTab.ConfirmedOrPreparingCount | src/components/Vendor/OrdersTab.tsx:116 | the `preparing` counter is the number of Confirmed plus the number of Preparing orders |
| OrdersTab.PreparingCountVersusTab | src/components/Vendor/OrdersTab.tsx:108-116 | the `preparing` counter is what the 'preparing' and 'confirmed' tabs list together |
| OrdersTab.CountersMatchTabs | src/components/Vendor/OrdersTab.tsx:108-118 | `completed` and `pending` count what the 'delivered' and 'pending' tabs list, and revenue adds up exactly the orders the 'delivered' tab lists |
| OrdersTab.TabBadge | src/components/Vendor/OrdersTab.tsx:158-165 | every tab button shows a count, and 'confirmed', which has no button, none |
| OrdersTab.ReadyBadgeCountsUnlisted | src/components/Vendor/OrdersTab.tsx:162 | as written, the 'ready' badge counts every Ready_for_Pickup order while the tab lists none |
| OrdersTab.PreparingBadgeCountsConfirmed | src/components/Vendor/OrdersTab.tsx:161 | as written, the 'preparing' badge also counts the Confirmed orders the tab does not list |
| OrdersTab.BadgeMismatchWitness | src/components/Vendor/OrdersTab.tsx:110-162 | one ready order: badge 1, empty list; one confirmed order: 'preparing' badge 1, empty list |
| OrdersTab.IntendedSingleStatus | src/components/Vendor/OrdersTab.tsx:110 | a tab meant for one status lists exactly the orders of that status |
| OrdersTab.IntendedPreparing | src/components/Vendor/OrdersTab.tsx:116 | the 'preparing' tab meant to match its badge lists the Confirmed and Preparing orders |
| OrdersTab.IntendedAll | src/components/Vendor/OrdersTab.tsx:109 | the intended 'all' tab lists every order |
| OrdersTab.IntendedBadgesMatchLists | src/components/Vendor/OrdersTab.tsx:158-165 | filtering by the statuses each badge counts, every tab button's badge is the number of orders its tab lists |
| OrdersTab.IntendedAgreesElsewhere | src/components/Vendor/OrdersTab.tsx:108-111 | that filter lists the same orders as written on every tab but 'preparing' and 'ready' |
| AdminDashboard.ListsAfterFetch | src/components/Admin/AdminDashboard.tsx:48-64 | a failed business fetch empties both lists; otherwise every fetched row is kept, and the pending list holds exactly the Pending ones |
| AdminDashboard.StatusesPartition | src/components/Admin/AdminDashboard.tsx:63 | every business is exactly one of pending, approved and rejected |
| AdminDashboard.CountOrZero | src/components/Admin/AdminDashboard.tsx:78 | a count is kept when its query was fulfilled with a non-null count, and is 0 otherwise |
| AdminDashboard.StatsAfterFetch | src/components/Admin/AdminDashboard.tsx:67-87 | the users and drivers figures are their counts or 0; a rejected orders query leaves orders and revenue at 0; otherwise the order count or 0, and revenue sums the amounts when data came back |
| AdminDashboard.MissingAmountAddsNothing | src/components/Admin/AdminDashboard.tsx:82 | an order without an amount adds nothing to the revenue, wherever it sits |
| AdminDashboard.PresentAmountsSummed | src/components/Admin/AdminDashboard.tsx:82 | when every order carries an amount, the revenue is the sum of the amounts |
| AdminDashboard.FilteredBusinesses | src/components/Admin/AdminDashboard.tsx:99-112 | a business is listed exactly when the search matches its name, its owner's name or its owner's email and its status passes the filter |
| AdminDashboard.ShownInFetchedOrder | src/components/Admin/AdminDashboard.tsx:99-112 | two listed businesses appear in the order they were fetched in |
| AdminDashboard.StatusFilterSelectsItsStatus | src/components/Admin/AdminDashboard.tsx:108-109 | the 'pending', 'approved' and 'rejected' filters each select exactly the businesses of that status |
| AdminDashboard.EverythingShownByDefault | src/components/Admin/AdminDashboard.tsx:31-32 | with the initial empty search and 'all' filter every business is listed, in order |
| AdminDashboard.PendingFilterIsPendingList | src/components/Admin/AdminDashboard.tsx:63 | the 'pending' filter with an empty search lists the same businesses as the pending list |
| AdminDashboard.Cards | src/components/Admin/AdminDashboard.tsx:222-248 | the pending card counts the pending list and is urgent exactly above five; total businesses counts the approved ones; users and revenue come from the stored statistics |
| AdminDashboard.TotalBusinessesCountsApprovedOnly | src/components/Admin/AdminDashboard.tsx:225-233 | after a fetch the pending and total-businesses cards fall short of the fetched rows by exactly the rejected businesses |
| AdminDashboard.AuditActions | src/components/Admin/AdminDashboard.tsx:155 | the audit actions are 'BUSINESS_APPROVED' and 'BUSINESS_REJECTED' |
| AdminDashboard.FindBusiness | src/components/Admin/AdminDashboard.tsx:151 | a business is found exactly when some row has the id, and what is found is such a row |
| AdminDashboard.UpdateErrorMessage | src/components/Admin/AdminDashboard.tsx:171 | the shown error is never empty |
| AdminDashboard.UpdateBusinessStatus | src/components/Admin/AdminDashboard.tsx:137-175 | a store error is shown and nothing is audited; otherwise the modal closes, and an audit row (admin, action, business id and name, notes or null) is attempted exactly when the business is in the list and the admin's id is known; the action spinner always ends |
| AdminDashboard.AuditFailureKeepsUpdate | src/components/Admin/AdminDashboard.tsx:150-168 | a failing audit insert changes nothing else: the update stands, no error shows, the modal closes |
| AdminDashboard.ApplyStatus | src/components/Admin/AdminDashboard.tsx:140-146 | exactly the rows with that id take the new status |
| AdminDashboard.DecidedLeavesPending | src/components/Admin/AdminDashboard.tsx:63-167 | after the decision and the refetch, the pending list no longer holds that business and keeps every other pending one |
| ApprovalModal.Dispatch | src/components/Admin/VendorApprovalModal.tsx:17-23 | 'approve' calls only the approve callback, 'reject' only the reject callback, each with the notes, and no action calls neither |
| ApprovalModal.Press | src/components/Admin/VendorApprovalModal.tsx:224-225 | a click reaches a callback exactly when an action is chosen, the dashboard is not busy and, for a rejection, the notes are not blank |
| ApprovalModal.NotesRequiredOnlyToReject | src/components/Admin/VendorApprovalModal.tsx:225 | approving needs no notes; rejecting is enabled exactly when the notes are not blank |
| ApprovalModal.ButtonLabel | src/components/Admin/VendorApprovalModal.tsx:234 | 'Processing...' exactly while busy, otherwise 'Select Action', 'Approve Business' or 'Reject Application' exactly for no action, approve and reject |
| ApprovalModal.DecisionOf | src/components/Admin/AdminDashboard.tsx:501-502 | the approve callback stores Approved, the reject callback Rejected, never Pending |
| ApprovalModal.RejectionAuditKeepsReason | src/components/Admin/AdminDashboard.tsx:153-160 | a rejection made through the button always carries non-blank notes, so an audit row written for it keeps them under 'BUSINESS_REJECTED' |
| ApprovalModal.ReviewForm.constructor | src/components/Admin/VendorApprovalModal.tsx:14-15 | the dialog opens with no action and empty notes |
| ApprovalModal.ReviewForm.Choose | src/components/Admin/VendorApprovalModal.tsx:158-170 | the Approve and Reject buttons set the action and keep the notes |
| ApprovalModal.ReviewForm.SetNotes | src/components/Admin/VendorApprovalModal.tsx:194 | the textarea sets the notes and keeps the action |
| ApprovalModal.ReviewForm.Submit | src/components/Admin/VendorApprovalModal.tsx:17-23 | a submit is a `Press`: it reaches a callback exactly when the button is enabled, and then the one `Dispatch` names |
| Accounting.SummaryFor | src/components/Admin/AccountingPage.tsx:46-64 | a business's summary is about that business, and its outstanding balance is its revenue less what it was paid |
| Accounting.Summaries | src/components/Admin/AccountingPage.tsx:45-65 | one summary per fetched business, in the fetched order |
| Accounting.SummarySnoc | src/components/Admin/AccountingPage.tsx:46-63 | one more ledger row adds to revenue only as that business's SaleRevenue, to paid out only as its VendorPayout, and to the count as any row of it, whatever its type |
| Accounting.OtherRowsIgnored | src/components/Admin/AccountingPage.tsx:46 | rows of other businesses, or of none, change nothing in a business's summary |
| Accounting.NoEntriesNoBalance | src/components/Admin/AccountingPage.tsx:46-63 | a business without ledger rows has zero revenue, paid out, balance and count |
| Accounting.PlatformOutstanding | src/components/Admin/AccountingPage.tsx:99-101 | over summaries that balance, the outstanding total is the revenue total less the paid-out total |
| Accounting.PageTotalsBalance | src/components/Admin/AccountingPage.tsx:45-101 | the page's three totals always balance |
| Accounting.LogPayoutWhenOwed | src/components/Admin/AccountingPage.tsx:240 | Log Payout is offered exactly when a business's sales exceed what it was paid |
| Transactions.TotalsOf | src/components/Admin/BusinessTransactionsModal.tsx:52-60 | the modal's outstanding balance is its revenue less its payouts |
| Transactions.ModalAgreesWithSummary | src/components/Admin/BusinessTransactionsModal.tsx:40-60 | since the modal shows the business's ledger rows in another order, its three figures equal the summary's on the accounting page |
| Transactions.Display | src/components/Admin/BusinessTransactionsModal.tsx:157-192 | a row is badged 'Revenue' exactly when it is sale revenue and 'Payout' otherwise, with a plus sign exactly for revenue |
| Transactions.ShownPayoutsVersusCounted | src/components/Admin/BusinessTransactionsModal.tsx:52-58 | a PlatformFee, DeliveryFee or Refund row is shown as a minus-signed payout but counted in neither total |
| Transactions.RevenueRowsAreCounted | src/components/Admin/BusinessTransactionsModal.tsx:52-54 | a row counts towards revenue exactly when it is shown as revenue |
| Payout.Ledger.constructor | src/components/Admin/PayoutModal.tsx:29-30 | the ledger holds the given rows |
| Payout.PayoutRow | src/components/Admin/PayoutModal.tsx:31-36 | the inserted row belongs to the business, has no order, is a VendorPayout already Paid, of the entered amount |
| Payout.PayoutModal.constructor | src/components/Admin/PayoutModal.tsx:12-15 | the modal opens with empty amount and notes, not loading, no error |
| Payout.PayoutModal.Submit | src/components/Admin/PayoutModal.tsx:17-47 | an empty or non-positive amount only shows the validation error; otherwise exactly one payout row is appended and the modal completes, or, on a store error, the ledger is unchanged and the error shown; loading ends off |
| Payout.LeadingDigitAccepted | src/components/Admin/PayoutModal.tsx:20 | an amount that starts with a non-zero digit passes the check |
| Payout.NegativeAmountRejected | src/components/Admin/PayoutModal.tsx:20-21 | the empty amount and every negative number fail the check |
| Payout.PayoutLowersOutstanding | src/components/Admin/PayoutModal.tsx:31-36 | a logged payout lowers the business's outstanding balance by its amount and adds one to its count, revenue unchanged |
| Payout.OverpaymentLeavesNegativeBalance | src/components/Admin/PayoutModal.tsx:20 | an amount above what is owed is accepted and leaves a negative balance, after which Log Payout is no longer offered |
| Payout.PayoutLeavesOthersAlone | src/components/Admin/PayoutModal.tsx:32 | a payout for one business leaves every other business's summary as it was |
| VendorDashboard.FetchBusiness | src/components/Vendor/VendorDashboard.tsx:29-53 | the fetch fails exactly on an error other than "no rows", keeping the stored business and fetching no products; otherwise the reply is stored and the products of that business, if any, are fetched |
| VendorDashboard.NoRowsMeansNoBusiness | src/components/Vendor/VendorDashboard.tsx:38-46 | a vendor without a business row gets no error, no business and no product fetch |
| VendorDashboard.ProductsAfterFetch | src/components/Vendor/VendorDashboard.tsx:55-68 | an error keeps the list; otherwise the rows replace it, or nothing when none came back |
| VendorDashboard.ViewOf | src/components/Vendor/VendorDashboard.tsx:130-140 | the spinner exactly while loading, the set-up view exactly when loaded without a business, the dashboard otherwise |
| VendorDashboard.DeleteProduct | src/components/Vendor/VendorDashboard.tsx:83-103 | a delete is sent exactly when confirmed; it alerts exactly when it fails; the products are re-fetched exactly after a success with a known business |
| VendorDashboard.DeleteRows | src/components/Vendor/VendorDashboard.tsx:89-92 | exactly the rows of other ids remain |
| VendorDashboard.DeleteKeepsOrder | src/components/Vendor/VendorDashboard.tsx:89-92 | the remaining rows keep their order |
| VendorDashboard.ToggleRequest | src/components/Vendor/VendorDashboard.tsx:107-110 | the update targets the product and sends the opposite of its shown availability |
| VendorDashboard.ToggleAvailability | src/components/Vendor/VendorDashboard.tsx:105-121 | the update is always sent; it alerts exactly when it fails; the products are re-fetched exactly after a success with a known business |
| VendorDashboard.SetAvailability | src/components/Vendor/VendorDashboard.tsx:107-110 | exactly the rows with that id take the new availability |
| VendorDashboard.ToggleTwiceRestores | src/components/Vendor/VendorDashboard.tsx:105-115 | with unique ids, toggling a product and then its refreshed row restores the table |
| VendorDashboard.Counts | src/components/Vendor/VendorDashboard.tsx:158-170 | total is the number of products and the available count is the number of available products |
| VendorDashboard.AvailableCountSteps | src/components/Vendor/VendorDashboard.tsx:168 | an empty list has no available product, and adding a product raises the available count by one exactly when it is available |
| VendorDashboard.FilteredProducts | src/components/Vendor/VendorDashboard.tsx:190-199 | a product is listed exactly when the search matches its name or present description and it passes the availability filter |
| VendorDashboard.ListedInProductOrder | src/components/Vendor/VendorDashboard.tsx:190-199 | two listed products appear in the order of the product list |
| VendorDashboard.AvailabilityPartitions | src/components/Vendor/VendorDashboard.tsx:194-196 | for one search, the 'available' and 'unavailable' lists split the 'all' list between them, disjointly and with lengths adding up |
| VendorDashboard.EmptySearchAgreesWithCounts | src/components/Vendor/VendorDashboard.tsx:167-199 | with an empty search, 'available' lists as many products as the card counts and 'all' lists every product in order |
| VendorRegister.InitialForm | src/pages/auth/VendorRegisterPage.tsx:8-21 | the form starts with exactly the ten named fields |
| VendorRegister.Changed | src/pages/auth/VendorRegisterPage.tsx:124-130 | the named field takes the checkbox's state or the input's text, and every other field is kept |
| VendorRegister.StepTwo | src/pages/auth/VendorRegisterPage.tsx:43-121 | sign-up is requested exactly given consent; the profile row is sent exactly when sign-up returned a user; the business row exactly when the profile insert succeeded; the dashboard follows exactly when the business insert succeeded too |
| VendorRegister.AfterSignUp | src/pages/auth/VendorRegisterPage.tsx:71-115 | once a user exists its profile row is sent; the business row is sent exactly when that insert succeeded, and the dashboard follows exactly when both did |
| VendorRegister.NoConsentNoSignUp | src/pages/auth/VendorRegisterPage.tsx:47-51 | without consent the form stops with the consent error, loading off, before any sign-up |
| VendorRegister.InsertedRowsShape | src/pages/auth/VendorRegisterPage.tsx:57-104 | the sign-up and profile carry the Vendor role; the profile is active, of the new user, stamped with the consent time; the business is Pending, of the same user, with an empty description or contact sent as null |
| VendorRegister.FailuresReported | src/pages/auth/VendorRegisterPage.tsx:69-121 | every failure ends with a non-empty error, loading off and no navigation; full success ends with no error and /dashboard |
| VendorRegister.RegistrationForm.constructor | src/pages/auth/VendorRegisterPage.tsx:7-25 | the form starts on step 1 with the initial fields, no error, not loading, nothing sent |
| VendorRegister.RegistrationForm.InputChange | src/pages/auth/VendorRegisterPage.tsx:124-130 | the form becomes `Changed` of the old form and nothing else changes |
| VendorRegister.RegistrationForm.Previous | src/pages/auth/VendorRegisterPage.tsx:430 | the Previous button returns to step 1 and changes nothing else |
| VendorRegister.RegistrationForm.Submit | src/pages/auth/VendorRegisterPage.tsx:29-122 | on step 1 nothing is sent and a password mismatch keeps the step with its error, else step 2 follows; on step 2 exactly the requests `StepTwo` describes are recorded, with its error, loading and navigation |
| VendorRegister.RegistrationForm.SubmitAccountDetails | src/pages/auth/VendorRegisterPage.tsx:32-41 | a password mismatch sets 'Passwords do not match' and keeps the step; otherwise the error clears and step 2 follows; nothing is sent |
| VendorRegister.RegistrationForm.SubmitBusinessDetails | src/pages/auth/VendorRegisterPage.tsx:43-121 | the requests, error, loading and navigation of `StepTwo` |
| VendorRegister.RegistrationForm.InsertRows | src/pages/auth/VendorRegisterPage.tsx:74-114 | the profile row is appended; the business row only after a successful profile insert; /dashboard only after both; the error and loading are those of `AfterSignUp` |
| BulkUpload.Clean | src/components/Vendor/BulkUploadModal.tsx:46 | a cleaned value holds no quote and neither starts nor ends with white space |
| BulkUpload.Cells | src/components/Vendor/BulkUploadModal.tsx:61 | one cleaned cell per comma-separated piece of the line |
| BulkUpload.LastColumn | src/components/Vendor/BulkUploadModal.tsx:65-76 | the column that fills a field is the last whose lower-cased header is the key, or none when no header is |
| BulkUpload.RowByFieldsSnoc | src/components/Vendor/BulkUploadModal.tsx:65-76 | one more column changes the field-by-field product exactly as one assignment step of the `forEach` does |
| BulkUpload.RowByFieldsLast | src/components/Vendor/BulkUploadModal.tsx:65-76 | the same step, stated for the last column of a row |
| BulkUpload.RowFromFields | src/components/Vendor/BulkUploadModal.tsx:64-76 | filling the columns one by one leaves in each field the coerced value of the last column with its header, and ignores other headers |
| BulkUpload.FillProduct | src/components/Vendor/BulkUploadModal.tsx:64-76 | the `forEach` fills the product `RowFrom` describes |
| BulkUpload.KeptRowsSnoc | src/components/Vendor/BulkUploadModal.tsx:60-81 | one more data line appends exactly its own product, if any |
| BulkUpload.ColumnCount | src/components/Vendor/BulkUploadModal.tsx:61-62 | a line has one column more than it has commas, quoted or not |
| BulkUpload.ParseLine | src/components/Vendor/BulkUploadModal.tsx:61-80 | one pass of the loop pushes the line's product exactly when the column counts agree and the product has a name and a positive price |
| BulkUpload.ParseRows | src/components/Vendor/BulkUploadModal.tsx:58-83 | the loop returns the products of the data lines, in order |
| BulkUpload.ParseCsvData | src/components/Vendor/BulkUploadModal.tsx:42-84 | fewer than two lines give no products; a header line lacking a required column raises the columns error; otherwise the kept products of the data lines |
| BulkUpload.ParseCsv | src/components/Vendor/BulkUploadModal.tsx:42-84 | a failure is the missing-columns error; a success holds only products with a name and a positive price, fewer than there are lines |
| BulkUpload.ParseLinesValid | src/components/Vendor/BulkUploadModal.tsx:43-84 | on the split lines: a failure is the missing-columns error, a success holds only kept products and fewer of them than lines |
| BulkUpload.KeptRowsConcat | src/components/Vendor/BulkUploadModal.tsx:60-81 | parsing keeps the input order: two runs of lines give the products of the first followed by those of the second |
| BulkUpload.KeptRowsFlat | src/components/Vendor/BulkUploadModal.tsx:60-81 | the parsed products are the lines' products, flattened |
| BulkUpload.KeptRowsValid | src/components/Vendor/BulkUploadModal.tsx:78-80 | every kept product has a name and a positive price, and no line yields more than one |
| BulkUpload.AlignedLineKept | src/components/Vendor/BulkUploadModal.tsx:62-80 | a line with the header's column count whose product has a name and a positive price is appended |
| BulkUpload.MisalignedLineSkipped | src/components/Vendor/BulkUploadModal.tsx:62 | a line whose comma count does not give the header's column count, e.g. one with a quoted comma, is skipped |
| BulkUpload.RowFieldCoercion | src/components/Vendor/BulkUploadModal.tsx:69-75 | availability is true exactly when its value lower-cases to "true"; an unparseable price becomes 0 and drops the row; text fields hold no quotes |
| BulkUpload.LaterColumnWins | src/components/Vendor/BulkUploadModal.tsx:65-76 | when a header appears twice the later column's value is kept |
| BulkUpload.ShortInputGivesNothing | src/components/Vendor/BulkUploadModal.tsx:43-44 | input of fewer than two lines gives no products and no error |
| BulkUpload.HeaderCheckIgnoresOrder | src/components/Vendor/BulkUploadModal.tsx:50-52 | the header check depends neither on the order nor on the letter case of the headers |
| BulkUpload.CleanKeeps | src/components/Vendor/BulkUploadModal.tsx:61 | a value without quotes or surrounding white space is kept as it is |
| BulkUpload.CleanUnquotes | src/components/Vendor/BulkUploadModal.tsx:61 | a quoted value loses its quotes |
| BulkUpload.CellsOf | src/components/Vendor/BulkUploadModal.tsx:61 | a line joined from plain or quoted comma-free values has exactly those values as cells |
| BulkUpload.SplitLines | src/components/Vendor/BulkUploadModal.tsx:43 | trimming and splitting the join of lines that neither start nor end with white space gives the lines back |
| BulkUpload.RowFromSix | src/components/Vendor/BulkUploadModal.tsx:64-76 | six columns under the six required headers, in order, fill the six fields in order |
| BulkUpload.RequiredHeadersLower | src/components/Vendor/BulkUploadModal.tsx:47-52 | the header line of the six required names passes the check |
| BulkUpload.AllMisaligned | src/components/Vendor/BulkUploadModal.tsx:62 | lines that all have the wrong column count yield nothing |
| BulkUpload.OnlyThirdLine | src/components/Vendor/BulkUploadModal.tsx:60-81 | of three data lines, the first two misaligned, only the third can yield a product |
| CsvTemplate.HeaderCells | src/components/Vendor/BulkUploadModal.tsx:28 | the template's header line has exactly the six required names as cells |
| CsvTemplate.CakeCells | src/components/Vendor/BulkUploadModal.tsx:31 | the cake line's cells are its six values with the quotes gone |
| CsvTemplate.TemplateSplits | src/components/Vendor/BulkUploadModal.tsx:28-43 | the trimmed template splits into its four lines |
| CsvTemplate.QuotedCommasAddColumns | src/components/Vendor/BulkUploadModal.tsx:29-62 | the commas inside the pizza and burger descriptions give those lines eight cells where the header has six |
| CsvTemplate.TemplateKeepsLastLine | src/components/Vendor/BulkUploadModal.tsx:42-84 | the header passes the check and only the last data line can yield a product |
| CsvTemplate.CakeLineParses | src/components/Vendor/BulkUploadModal.tsx:31-80 | the cake line yields the cake product: its name, description, price 45, category, no image, available |
| CsvTemplate.TemplateParsesToCakeOnly | src/components/Vendor/BulkUploadModal.tsx:28-84 | parsing the modal's own template yields the chocolate cake alone |
| BulkInsert.CategoryNames | src/components/Vendor/BulkUploadModal.tsx:109 | the names to resolve are distinct, and a name is among them exactly when it is non-empty and some product has it |
| BulkInsert.CategoryIdsSound | src/components/Vendor/BulkUploadModal.tsx:110-131 | a completed category map has exactly the names as keys, each mapped to its stored id or its newly created one |
| BulkInsert.FailureStops | src/components/Vendor/BulkUploadModal.tsx:128 | the first failing creation ends the loop with its error, whatever names follow |
| BulkInsert.BuildCategoryMap | src/components/Vendor/BulkUploadModal.tsx:110-131 | the loop returns the category map `CategoryIds` describes, or the first creation error |
| BulkInsert.CategoryIdOf | src/components/Vendor/BulkUploadModal.tsx:139 | a product gets a category id exactly when it has a category found in the map, and then that category's id |
| BulkInsert.ProductsToInsert | src/components/Vendor/BulkUploadModal.tsx:134-142 | one row per previewed product, in order, of this business, with its name, price and availability, empty description and image as null, and its category's id |
| BulkInsert.NamesCoverProducts | src/components/Vendor/BulkUploadModal.tsx:109 | every product with a category contributes its name to the names to resolve |
| BulkInsert.InsertedCategoryIds | src/components/Vendor/BulkUploadModal.tsx:109-142 | after resolution every product with a category is inserted with the id stored or created for its name, and every product without one with null |
| BulkInsert.ProductTable.constructor | src/components/Vendor/BulkUploadModal.tsx:145-147 | the table holds the given rows |
| BulkInsert.BulkUploadModal.constructor | src/components/Vendor/BulkUploadModal.tsx:21-25 | the modal opens with no text, no error, no notice and an empty preview |
| BulkInsert.BulkUploadModal.Preview | src/components/Vendor/BulkUploadModal.tsx:86-96 | a successful parse becomes the preview with the 'Parsed N products' notice; a header error empties the preview and is shown |
| BulkInsert.BulkUploadModal.Upload | src/components/Vendor/BulkUploadModal.tsx:98-162 | an empty preview is refused with 'No valid products to upload'; a failing category creation or insert leaves the table unchanged and shows its message; otherwise exactly the prepared rows are appended and the upload notice shows; loading ends off |

## Left out

- Backend I/O is not modelled: queries, inserts, updates, deletes, sign-in, sign-up, storage
  and the database client itself. Each reply is a parameter, and the refetch a handler starts
  after a write is simply another call with new replies.
- Realtime channel subscriptions are left out; a pushed change is just a later fetch.
- Persisting the cart in localStorage (src/hooks/useCart.ts:12-27) is browser storage and is
  left out; the cart starts empty.
- `setTimeout` delays, the timeouts and `Promise.race` in src/pages/DashboardRouter.tsx are
  timing, not logic. A timeout's exception is just one more reply carrying a message.
- The Date arithmetic that turns the chosen period into a start date
  (src/components/Admin/PlatformAnalytics.tsx:44-47, and its counterpart in the vendor
  analytics tab) is left out. The fetched rows of the period are the inputs.
- `toFixed` and `toLocaleString` only format numbers for display; amounts stay exact reals.
- `parseFloat` is modelled on plain decimals: leading white space, an optional sign, digits
  and an optional fraction, with any trailing text ignored. Exponents and `Infinity` are left
  out.
  Floating-point rounding of sums is not modelled either.
- `toLowerCase`/`toUpperCase` map ASCII letters only; other Unicode case mappings are left out.
- `Object.keys`/`Object.entries` list integer-like keys (such as "12") before all others, in
  numeric order. The group-by model uses first-insertion order for every key, so it does not
  cover product or business names that are canonical array indices.
- Downloading the CSV template (src/components/Vendor/BulkUploadModal.tsx:27-40) is Blob and
  DOM work and is left out. Parsing the template's text is modelled.
- The business page's fetch of the business and its products is left out. Its category tabs,
  filter and cart controls work on the fetched products.
- Geolocation, the map, the driver location interval, and the driver claim and delivery-code
  check do not appear in the modelled code (src/components/Driver/DriverDashboard.tsx only
  reads orders and writes a location). None of them is modelled.
- The route table in src/App.tsx is not part of this model. Its access rule is what
  `AuthGuard.Guard` decides for each route.
- Presentational pages (hero, features, footer, confirmation pages, product cards) and the
  product edit modal are not part of this model.
- Payout.PayoutModal.Submit requires the amount to be empty or a number `parseFloat`
  accepts. The field is a number input, and the browser hands over only those two forms.
- VendorRegister.TextOf reads a field as text only when it holds text. The checkbox field is
  never read as text by the form, so no other case arises.
- BulkUpload: a product object starts blank (empty strings, price 0, not available) instead of
  with its fields undefined. A row is only parsed once the header has all six required columns,
  so every field is assigned before it is read and the two starts cannot be told apart.

- CollectProductStats: models the product loop in its corrected form, so a product whose name
  the empty object inherits (such as "constructor") keeps its entry. The loop as written, which
  drops that product, is `VendorAnalytics.ProductStatsAsWritten` (see Findings).
- FetchAnalytics: stores the figures of the corrected product grouping, not of the loop as
  written; the two differ only for product names the empty object inherits.
- FetchPlatformMetrics: stores the metrics of the corrected business grouping
  (`PlatformAnalytics.BusinessStatsOf`), not of the loop as written
  (`PlatformAnalytics.BusinessStatsAsWritten`); the two differ only for business names the
  empty object inherits.
- Whether the login page itself navigates after a sign-in cannot be told here:
  src/pages/auth/LoginPage.tsx, which mounts the form, is not part of this model.

## Findings

| source | as written | input that shows it | evidently intended | confidence | as-written member | corrected member |
|---|---|---|---|---|---|---|
| src/components/Customer/CartPage.tsx:140-148 | the cart page adds one R25 delivery fee to the subtotal, but checkout (src/components/Customer/CheckoutPage.tsx:18) charges R25 per vendor order | a cart with lines from two vendors: the page shows subtotal + 25, checkout charges subtotal + 50 | the total shown equals what checkout charges: subtotal + R25 per vendor | not executed; follows from the two expressions | Checkout.DisplayedTotalUnderstatesCharge | Checkout.ChargedTotalMatchesCheckout |
| src/components/Vendor/OrdersTab.tsx:108-162 | the 'ready' tab compares `"ready_for_pickup"` with one underscore removed against `"ready"`, so it lists nothing, while its badge counts every Ready_for_Pickup order | one order in status Ready_for_Pickup: badge 1, tab empty | the 'ready' tab lists the Ready_for_Pickup orders its badge counts | not executed; follows from the string comparison | OrdersTab.ReadyBadgeCountsUnlisted | OrdersTab.IntendedBadgesMatchLists |
| src/components/Vendor/OrdersTab.tsx:116-161 | the 'preparing' badge counts Confirmed and Preparing orders, but the 'preparing' tab lists only Preparing | one order in status Confirmed: badge 1, tab empty | each badge counts exactly the orders its tab lists | not executed; the intended side is a guess between widening the tab and narrowing the badge | OrdersTab.PreparingBadgeCountsConfirmed | OrdersTab.IntendedBadgesMatchLists |
| src/components/Vendor/AnalyticsTab.tsx:73-77 | `if (!productStats[name])` is false for a name that the empty object inherits, so that product's items get no entry and are missing from the product breakdown | an order item whose product is named "constructor" | every item is counted under its product's entry | not executed; follows from JavaScript's prototype lookup | VendorAnalytics.InheritedProductNameDropped | VendorAnalytics.ProductStatsTotals |
| src/components/Admin/PlatformAnalytics.tsx:103-105 | the same check on `businessStats` drops the orders of a business whose name the empty object inherits | a delivered order of a business named "toString" | every order is counted under its business's entry | not executed; follows from JavaScript's prototype lookup | PlatformAnalytics.InheritedBusinessNameDropped | PlatformAnalytics.BusinessStatsTotals |
| src/components/Auth/LoginForm.tsx:29-30 | the redirect effect waits for `!loading`, but a successful sign-in leaves `loading` on (lines 70-74), so the form never redirects by itself | a correct e-mail and password: the sign-in succeeds, the profile loads, and the spinner stays on | the spinner is released once the sign-in succeeds, so the effect sends the user to their page | not executed; the page that mounts the form is not part of this model and may navigate on its own | LoginForm.SuccessBlocksRedirect | LoginForm.SignInForm.HandleSubmitReleasing |
