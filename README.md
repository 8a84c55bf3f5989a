# A verified model of the decision logic of the MERN e-commerce shop

The shop is a React single-page client with an Express/Mongo server. Customers browse
products, add them to a cart and pay through PayPal; administrators manage products, order
statuses and the home page's feature images. This project models, in Dafny, the decisions
and state changes the application's code makes, and proves what each of them promises:

- the route guard that wraps the `/auth`, `/admin` and `/shop` subtrees, and the App's
  root redirect, wildcard fallbacks and loading skeleton (`CheckAuth`, `App`);
- the client's session reducer and the server's registration, login and token guards
  (`AuthSlice`, `AuthController`, with the user collection as a class holding a sequence);
- the add-to-cart stock guard at its three call sites (`ProductDetails`, `Search`, `Home`),
  the product dialog's review handling and average rating;
- the cart total and the checkout's two guards and order snapshot (`CartLines`,
  `CartWrapper`, `Checkout`);
- the admin order dialog's status options, badge colours and update guard
  (`AdminOrderDetails`);
- product creation, the falsy-fallback edit merge, not-found paths and the newest-first
  listing (`ProductsController`, with the catalogue as a class), the admin form-validity
  check and its resets (`AdminProducts`);
- the shared rule-based form validator (`Form`; its loop is a `while` loop proved against
  a fold over the controls);
- the feature-image reducer (`CommonSlice`) and the home carousel's index arithmetic and
  listing filter (`Home`).

Shared pieces: `Wrappers` (an `Option` type), `Text` (JavaScript's `trim`, `includes`,
`startsWith` and `length` on strings, with the ECMAScript white-space set; a Dafny string is a
sequence of Unicode scalar values, and `length` counts UTF-16 code units, two for a scalar
above U+FFFF), `Js` (JavaScript values,
truthiness, `||`, and numbers with `NaN` and the truncating `%`), `Session` (the user object
of a session). Hashing, hash comparison, token signing and verification, the regular
expression of a form rule and the save failures of the store are parameters of the members
that need them. Prices, stock and ratings are integers; the average rating is a `real`.

Stateful code keeps its form: Redux reducers that assign fields of the draft, component
state set by handlers and the server collections that handlers insert into, update or
delete from are classes whose methods state their whole new state; pure decisions are
functions whose contracts say what they mean, with lemmas relating them.

## Model

| member | source | states |
|---|---|---|
| Text.TrimShape | server/controllers/auth/auth-controller.js:10-11 | `trim` removes a whitespace-only prefix and suffix and nothing else: the result is an infix, empty or starting and ending with a non-space |
| Text.TrimEmptyIffAllSpace | client/src/components/shopping/product-details.jsx:58 | a string trims to "" exactly when it is all whitespace |
| Text.TrimIdempotent | server/controllers/auth/auth-controller.js:10-11 | trimming a trimmed string changes nothing, so stored trimmed values stay trimmed |
| Text.Contains | client/src/components/common/check-auth.jsx:12-13 | `includes` holds exactly when the substring occurs at some position |
| Text.Utf16Length | client/src/pages/shopping/search.jsx:29 | `length` lies between the number of scalars and twice it, and equals it exactly for text of the Basic Multilingual Plane |
| Text.Utf16LengthAppend | client/src/components/common/form.jsx:43 | `length` adds up over concatenation |
| Text.AstralCountsTwice | client/src/pages/shopping/search.jsx:29 | two emoji are two scalars and four code units |
| Js.Or | server/controllers/admin/products-controller.js:123-132 | `a \|\| b` is `a` when `a` is truthy, else `b`; the result is truthy iff either operand is |
| Js.Rem | client/src/pages/shopping/home.jsx:142-146 | `%` is NaN for a NaN operand or a zero divisor; otherwise the remainder lies in [0, b) for a non-negative dividend and takes the dividend's sign |
| CheckAuth.RoleHome | client/src/components/common/check-auth.jsx:6-7 | the role home is /admin/dashboard exactly for role "admin", else /shop/home |
| CheckAuth.RoleOf | client/src/components/common/check-auth.jsx:21 | `user?.role` is present exactly when the user is, and is that user's role |
| CheckAuth.Decide | client/src/components/common/check-auth.jsx:10-44 | the guard as written: without a session everything but login/register pages goes to /auth/login and those pages render; a session at "/" or on a login/register page goes to its role home; a non-admin under /admin goes to /unauth-page; an admin under /shop goes to /admin/dashboard; it crashes exactly for an authenticated state without a user on a login/register path; it renders in exactly two situations; every redirect target is one of four paths |
| CheckAuth.DecideSafe | client/src/components/common/check-auth.jsx:25-31 | the guard with `user?.role` at line 30 never crashes and agrees with the code as written wherever that does not crash |
| CheckAuth.CrashAfterRegistration | client/src/components/common/check-auth.jsx:30 | the state a successful registration leaves (authenticated, no user) crashes the guard on /auth/register and /auth/login |
| CheckAuth.LoginDetectedAnywhere | client/src/components/common/check-auth.jsx:10-31 | "/login" anywhere in the path counts: /shop/login sends an admin to the dashboard and renders for a visitor |
| CheckAuth.ShopTestIsPrefix | client/src/components/common/check-auth.jsx:38-40 | the /shop test is a prefix test: an admin on /x/shop is let through |
| CheckAuth.AdminTestIsPrefix | client/src/components/common/check-auth.jsx:35-37 | the /admin test is a prefix test: a non-admin on /x/admin is let through |
| App.SubtreesDisjoint | client/src/App.jsx:69-115 | the /auth, /admin and /shop subtrees never share a path |
| App.Lower | client/src/App.jsx:77-79 | route paths are compared in ASCII lower case: each character is lowered and nothing else changes |
| App.DropTrailingSlashes | client/src/App.jsx:77-79 | the longest prefix that does not end in "/", with only slashes removed |
| App.RouteKeyIgnoresSlashAndCase | client/src/App.jsx:77-79 | an added trailing slash or a change of letter case leaves the compared form unchanged |
| App.Child | client/src/App.jsx:77-79 | a child path matches ignoring letter case and trailing slashes and shows its page; any other sub-path takes the `*` route to the subtree's default page |
| App.ChildIgnoresSlashAndCase | client/src/App.jsx:77-79 | "home/", "Home" and "home" select the same child route |
| App.Guarded | client/src/App.jsx:70-75 | given the guard's decision: its redirect wins over the subtree, its TypeError replaces the whole view, and when it renders the child route is shown |
| App.RootElement | client/src/App.jsx:52-65 | the root element redirects by role when authenticated and to /auth/login otherwise |
| App.Subtree | client/src/App.jsx:83-96 | under the guard's decision a subtree redirects as the guard says, crashes exactly when the guard does, shows the matched page or falls back to its default page, and shows a page only when the guard renders |
| App.Render | client/src/App.jsx:40-121 | the application as written, over the guard of check-auth.jsx: the skeleton exactly while loading, a page only when that guard renders, a crash only when that guard crashes |
| App.Routes | client/src/App.jsx:40-121 | the route table for a given guard decision: the skeleton exactly while loading, a page only when the guard renders, a crash only when the guard crashes |
| App.RenderSafe | client/src/App.jsx:40-121 | the application with the corrected guard never crashes and shows what the program shows wherever the program does not crash |
| App.RootRedirect | client/src/App.jsx:57-63 | "/" sends an admin to /admin/dashboard, any other session to /shop/home, no session to /auth/login |
| App.GuardComesFirst | client/src/App.jsx:69-105 | inside each subtree the guard's redirect is the view, and the whole view crashes exactly when the guard does |
| App.CrashAfterRegistrationShown | client/src/App.jsx:52-79 | right after registration the application crashes on /auth/login, while the corrected guard sends the session to /shop/home |
| App.AuthFallback | client/src/App.jsx:77-79 | under /auth, once the guard lets the path through, a sub-path matching login or register (any case, any trailing slashes) shows that page and any other redirects to /auth/login |
| App.AdminFallback | client/src/App.jsx:89-95 | under /admin, once the guard lets the path through, a sub-path matching a declared page (any case, any trailing slashes) shows it and any other redirects to /admin/dashboard |
| App.ShopFallback | client/src/App.jsx:106-114 | under /shop, once the guard lets the path through, a sub-path matching a declared page (any case, any trailing slashes) shows it and any other redirects to /shop/home |
| App.UnauthPageUnguarded | client/src/App.jsx:118 | /unauth-page is outside the guarded subtrees and is shown to anyone |
| AuthSlice.RejectionMessage | client/src/store/auth-slice/index.js:23-24 | the rejection message is the server's message if present, else the error's message, else the fixed fallback, and is never empty |
| AuthSlice.AuthState.constructor | client/src/store/auth-slice/index.js:4-9 | the initial state is unauthenticated, loading, without user or error |
| AuthSlice.AuthState.SetUser | client/src/store/auth-slice/index.js:87-90 | the user becomes the payload and the flag its truthiness; nothing else changes |
| AuthSlice.AuthState.Pending | client/src/store/auth-slice/index.js:95-98 | every pending case sets loading and clears the error, leaving the session alone |
| AuthSlice.AuthState.Rejected | client/src/store/auth-slice/index.js:105-110 | every rejected case clears the user and the flag, stops loading and records the payload's message |
| AuthSlice.AuthState.RegisterFulfilled | client/src/store/auth-slice/index.js:99-104 | the flag becomes `success`, the user the payload's user on success (none for a registration response), the error cleared on success or the message on failure |
| AuthSlice.AuthState.LoginFulfilled | client/src/store/auth-slice/index.js:117-127 | success sets user and flag and leaves the error untouched; failure clears the user and flag and records the message |
| AuthSlice.AuthState.LogoutFulfilled | client/src/store/auth-slice/index.js:136-141 | logout clears user, flag, error and loading |
| AuthSlice.AuthState.CheckAuthFulfilled | client/src/store/auth-slice/index.js:148-153 | the session check always clears the error and sets the flag to `success` |
| AuthController.TrimField | server/controllers/auth/auth-controller.js:10-11 | `v?.trim()`: absent stays absent, present is trimmed |
| AuthController.CheckRegistration | server/controllers/auth/auth-controller.js:10-32 | after trimming name and e-mail (not the password): missing fields give 400 "All fields are required"; else a taken name gives "Username is already taken", even when the e-mail is taken too; else a taken e-mail gives "Email is already taken"; otherwise the trimmed values are accepted, all non-empty and free |
| AuthController.MissingFieldsIgnoresStore | server/controllers/auth/auth-controller.js:13-17 | the missing-fields verdict does not depend on the store |
| AuthController.SaveFailed | server/controllers/auth/auth-controller.js:46-57 | a duplicate key reports its first field as "already taken" with 400; any other failure is 500 "Failed to register user" |
| AuthController.FindByEmail | server/controllers/auth/auth-controller.js:65 | the first record with the e-mail, none exactly when no record has it |
| AuthController.Login | server/controllers/auth/auth-controller.js:61-118 | a failing `findOne`, or a known e-mail with no password (on which `bcrypt.compare` throws), gives 500 "Failed to login"; otherwise an unknown e-mail and a wrong password give 401 with distinct messages; otherwise 200 with a user of exactly id, e-mail, role and user name (no password) and the token signed over that user; no user or token on failure |
| AuthController.Authenticate | server/controllers/auth/auth-controller.js:133-155 | a missing token or one that fails verification answers 401 and never reaches `next`; otherwise the decoded claims become the request's user |
| AuthController.UserStore.Register | server/controllers/auth/auth-controller.js:6-58 | rejections and save failures leave the store unchanged; success appends exactly one user holding the trimmed name and e-mail, the hash of the password and the default role; ids stay positions, names and e-mails stay unique and both stay trimmed |
| AuthController.AppendWellFormed | server/controllers/auth/auth-controller.js:19-45 | appending a record with the next id and a free, trimmed name and e-mail keeps the collection well formed |
| AuthController.UntrimmedLoginFails | server/controllers/auth/auth-controller.js:62-72 | login does not trim: an e-mail typed with leading whitespace never matches a stored (trimmed) e-mail |
| CartLines.ItemsOrEmpty | client/src/components/shopping/product-details.jsx:27 | `cartItems.items \|\| []` |
| CartLines.FindIndex | client/src/components/shopping/product-details.jsx:28-30 | the first index with the product id, -1 exactly when there is none |
| CartLines.EffectivePrice | client/src/components/shopping/cart-wrapper.jsx:14-16 | the sale price when it is positive, else the price |
| CartLines.TotalAppend | client/src/components/shopping/cart-wrapper.jsx:11-19 | the total of a concatenation is the sum of the totals |
| CartLines.TotalCons | client/src/components/shopping/cart-wrapper.jsx:12-17 | a line contributes its effective price times its quantity |
| CartLines.TotalNonNegative | client/src/pages/shopping/checkout.jsx:19-28 | non-negative prices and quantities give a non-negative total |
| CartWrapper.TotalCartAmount | client/src/components/shopping/cart-wrapper.jsx:9-20 | a missing or empty cart totals 0; otherwise the fold of effective price times quantity |
| CartWrapper.LineContribution | client/src/components/shopping/cart-wrapper.jsx:13-17 | inserting a line anywhere adds exactly its effective price times its quantity |
| CartWrapper.SalePriceMatters | client/src/components/shopping/cart-wrapper.jsx:14-16 | a one-line cart totals (salePrice > 0 ? salePrice : price) × quantity |
| CartWrapper.HiddenFooterMeansZero | client/src/components/shopping/cart-wrapper.jsx:58-73 | the checkout footer shows exactly for a non-empty cart, and when hidden the total is 0 |
| Checkout.LinesOf | client/src/pages/shopping/checkout.jsx:20 | `cartItems?.items` |
| Checkout.TotalCartAmount | client/src/pages/shopping/checkout.jsx:19-28 | 0 without lines, else the fold; equal to the cart sheet's total on the same lines |
| Checkout.AddressInfoOf | client/src/pages/shopping/checkout.jsx:51-58 | the address snapshot copies id, address, city, pincode, phone and notes |
| Checkout.Snapshot | client/src/pages/shopping/checkout.jsx:44-50 | one order line per cart line in the same order, with product id, title, image, quantity and the effective price |
| Checkout.SnapshotAddsUp | client/src/pages/shopping/checkout.jsx:44-62 | the order lines add up to the cart total |
| Checkout.BuildOrder | client/src/pages/shopping/checkout.jsx:30-67 | an empty cart is rejected first, then a missing address; otherwise the order carries the user id, cart id, snapshot, address copy, statuses pending/pending, method paypal, empty payment and payer ids, and a total equal to the sum of its lines |
| Checkout.EmptyCartReportedFirst | client/src/pages/shopping/checkout.jsx:31-39 | an empty or missing cart is reported even when no address is selected |
| Checkout.CheckoutPage.constructor | client/src/pages/shopping/checkout.jsx:16-17 | no address selected and no payment under way |
| Checkout.CheckoutPage.SelectAddress | client/src/pages/shopping/checkout.jsx:97-99 | selecting an address stores it |
| Checkout.CheckoutPage.InitiatePaypalPayment | client/src/pages/shopping/checkout.jsx:30-70 | an order is dispatched exactly when both guards pass, and the flag is raised exactly then |
| Checkout.CheckoutPage.OrderSettled | client/src/pages/shopping/checkout.jsx:71-81 | a failed or rejected order lowers the flag; success keeps it |
| AdminOrderDetails.BadgeColour | client/src/components/admin/order-details.jsx:76-90 | each of the six known statuses gets its colour; anything else is gray |
| AdminOrderDetails.BadgeColoursDistinct | client/src/components/admin/order-details.jsx:76-90 | the six colours are pairwise distinct and none is gray |
| AdminOrderDetails.StatusOptions | client/src/components/admin/order-details.jsx:141-148 | exactly five distinct statuses: the known ones without "confirmed" |
| AdminOrderDetails.UpdateFor | client/src/components/admin/order-details.jsx:28-37 | no request for an empty selection; otherwise the selected status for this order's id |
| AdminOrderDetails.NoTransitionCheck | client/src/components/admin/order-details.jsx:35-37 | the request does not depend on the order's current status |
| AdminOrderDetails.OrderDetailsDialog.constructor | client/src/components/admin/order-details.jsx:20-23 | the form starts with an empty status |
| AdminOrderDetails.OrderDetailsDialog.Select | client/src/components/admin/order-details.jsx:141-152 | the select writes one of the five offered statuses, and the form keeps holding either nothing or an offered status |
| AdminOrderDetails.OrderDetailsDialog.HandleUpdateStatus | client/src/components/admin/order-details.jsx:28-37 | the handler sends what `UpdateFor` says, and only ever an offered status, never "confirmed" |
| AdminOrderDetails.OrderDetailsDialog.UpdateSettled | client/src/components/admin/order-details.jsx:37-44 | a successful update resets the status to empty |
| ProductsController.ZeroIsMissing | server/controllers/admin/products-controller.js:48-53 | a numeric 0 price or stock is refused as missing, the string "0" is not |
| ProductsController.OptionalFieldsIgnored | server/controllers/admin/products-controller.js:48-64 | description, brand, sale price and average review do not affect the creation check |
| ProductsController.Created | server/controllers/admin/products-controller.js:55-64 | the saved document is the body's eight fields, without an average review |
| ProductsController.PriceEdit | server/controllers/admin/products-controller.js:127-129 | "" sets the price to 0, a truthy value replaces it, any other falsy value keeps it |
| ProductsController.FalsyEditKeepsProduct | server/controllers/admin/products-controller.js:123-132 | an edit of only falsy values (no "" price) changes nothing |
| ProductsController.TruthyEditLands | server/controllers/admin/products-controller.js:123-132 | a truthy title, image, stock or price replaces the old one |
| ProductsController.PriceZeroOnlyByEmptyString | server/controllers/admin/products-controller.js:127-129 | after an edit the price is the number 0 exactly when "" was sent, or it was already 0 and nothing usable was sent; a numeric 0 keeps the old price; the string "0" a form sends is kept as the string "0" |
| ProductsController.StockNeverZeroed | server/controllers/admin/products-controller.js:130 | a stocked product's stock stays truthy after any edit and is never the number 0; the string "0" a form sends is kept as the string "0" |
| ProductsController.NewestFirst | server/controllers/admin/products-controller.js:84 | the listing is the collection in reverse creation order |
| ProductsController.NewestFirstDescending | server/controllers/admin/products-controller.js:84 | with ids in creation order the listing's ids go down |
| ProductsController.Find | server/controllers/admin/products-controller.js:116 | the position of the product with the id, -1 exactly when there is none |
| ProductsController.RemovalKeepsOrder | server/controllers/admin/products-controller.js:153 | removing one product keeps the others in order and drops the only one with its id |
| ProductsController.ProductCatalog.AddProduct | server/controllers/admin/products-controller.js:34-79 | a failed check gives 400 "Required fields are missing", a failed save 500, both changing nothing; otherwise 201 and exactly one product appended with a fresh id |
| ProductsController.ProductCatalog.FetchAll | server/controllers/admin/products-controller.js:82-90 | the listing is newest first and its count is its length |
| ProductsController.ProductCatalog.EditProduct | server/controllers/admin/products-controller.js:101-146 | an unknown id gives 404 and changes nothing; otherwise the nine fields are merged one by one and the product, and only it, is replaced by the merge |
| ProductsController.ProductCatalog.DeleteProduct | server/controllers/admin/products-controller.js:149-174 | a failing `findByIdAndDelete` gives 500 and changes nothing; an unknown id gives 404 and changes nothing; otherwise exactly that product is removed and returned |
| AdminProducts.InitialFormData | client/src/pages/auth/admin/products.jsx:22-31 | eight fields, the image `null`, the rest "" |
| AdminProducts.InitialFormInvalid | client/src/pages/auth/admin/products.jsx:99-104 | a fresh form cannot be submitted |
| AdminProducts.ExemptFieldsIgnored | client/src/pages/auth/admin/products.jsx:101 | sale price and average review never decide validity |
| AdminProducts.NullImagePasses | client/src/pages/auth/admin/products.jsx:99-104 | with the text fields filled the initial `null` image passes, the test being `!== ""` |
| AdminProducts.AdminProductsPage.constructor | client/src/pages/auth/admin/products.jsx:34-40 | the sheet closed, the form initial, no upload, no edited id |
| AdminProducts.AdminProductsPage.SetField | client/src/pages/auth/admin/products.jsx:179 | the form's setter changes one field |
| AdminProducts.AdminProductsPage.SetImage | client/src/pages/auth/admin/products.jsx:165-170 | the upload widget's setters store the file and URL |
| AdminProducts.AdminProductsPage.OpenForEdit | client/src/pages/auth/admin/products.jsx:125-127 | a tile's edit opens the sheet with its data and id |
| AdminProducts.AdminProductsPage.ButtonDisabled | client/src/pages/auth/admin/products.jsx:184 | the button is disabled exactly when some non-exempt field is "" |
| AdminProducts.AdminProductsPage.OnSubmit | client/src/pages/auth/admin/products.jsx:49-76 | edits exactly when the edited id is truthy, else adds; the image sent is always the uploaded URL and the other fields are the form's |
| AdminProducts.AdminProductsPage.SubmitSettled | client/src/pages/auth/admin/products.jsx:59-86 | success closes the sheet and resets form and upload, and an edit also forgets its id; failure changes nothing |
| AdminProducts.AdminProductsPage.OnOpenChange | client/src/pages/auth/admin/products.jsx:141-147 | closing the sheet resets everything |
| Form.Lookup | client/src/components/common/form.jsx:28 | a missing key reads as undefined |
| Form.Checked | client/src/components/common/form.jsx:28-33 | strings are trimmed before checking, other values are not |
| Form.ControlError | client/src/components/common/form.jsx:35-52 | no rules, no error; at most one error, `required` first with "<label> is required", then `minLength` on the trimmed string's UTF-16 length, then `pattern`, each with the rule's message |
| Form.ErrorKeys | client/src/components/common/form.jsx:24-56 | a name has an error entry exactly when some control of that name fails |
| Form.ValidIffNoControlFails | client/src/components/common/form.jsx:55-56 | the form is valid exactly when no control fails |
| Form.WhitespaceIsMissing | client/src/components/common/form.jsx:31-39 | a whitespace-only value fails `required` |
| Form.TwoEmojiMeetMinLength | client/src/components/common/form.jsx:40-45 | `minLength` counts code units: two emoji meet a minimum length of 4 |
| Form.MinLengthIgnoresPadding | client/src/components/common/form.jsx:40-45 | `minLength` counts the trimmed text, so padding does not help |
| Form.SilentErrorBlocks | client/src/components/common/form.jsx:45 | a failing rule without a message still leaves a key, blocking the submit with nothing shown |
| Form.ValidateForm | client/src/components/common/form.jsx:24-57 | the loop fills exactly the fold's error map and reports valid exactly when no control fails |
| Form.DisplayValue | client/src/components/common/form.jsx:67 | a control shows its value when truthy, else "" (a numeric 0 included) |
| Form.SetField | client/src/components/common/form.jsx:78-82 | an edit sets one key and leaves every other key untouched |
| Form.CommonForm.constructor | client/src/components/common/form.jsx:22 | no errors to begin with |
| Form.CommonForm.Change | client/src/components/common/form.jsx:78-95 | a change is the one-key update |
| Form.CommonForm.HandleSubmit | client/src/components/common/form.jsx:59-64 | the errors are recorded and `onSubmit` runs exactly when no control fails |
| Home.CategoryIds | client/src/pages/shopping/home.jsx:32-38 | five pairwise distinct category ids |
| Home.BrandIds | client/src/pages/shopping/home.jsx:40-47 | six pairwise distinct brand ids |
| Home.AutoAdvance | client/src/pages/shopping/home.jsx:90-99 | the timer does nothing without images |
| Home.StepsStayInRange | client/src/pages/shopping/home.jsx:128-146 | with n > 0 images and a valid slide, next, previous and the timer keep the slide in [0, n) |
| Home.PrevThenNext | client/src/pages/shopping/home.jsx:128-146 | previous then next, and next then previous, come back to the same slide |
| Home.NextIs | client/src/pages/shopping/home.jsx:142-146 | next wraps from the last slide to the first and otherwise adds one |
| Home.PrevIs | client/src/pages/shopping/home.jsx:128-134 | previous wraps from the first slide to the last and otherwise subtracts one |
| Home.ButtonsWithoutImagesGiveNaN | client/src/pages/shopping/home.jsx:131-132 | with no images either button makes the slide NaN |
| Home.NaNIsStuck | client/src/pages/shopping/home.jsx:94 | a NaN slide stays NaN under every later step |
| Home.GuardedNext | client/src/pages/shopping/home.jsx:142-146 | next with the timer's guard: unchanged without images, else the step; keeps a valid slide valid |
| Home.GuardedPrev | client/src/pages/shopping/home.jsx:128-134 | previous with the timer's guard: unchanged without images, else the step; keeps a valid slide valid |
| Home.HandleAddToCart | client/src/pages/shopping/home.jsx:71-84 | the home page always asks for quantity 1 of the product |
| Home.ShoppingHome.constructor | client/src/pages/shopping/home.jsx:50 | the carousel starts at slide 0 |
| Home.ShoppingHome.Next | client/src/pages/shopping/home.jsx:142-146 | the button as written: the slide becomes `(slide + 1) % n`, NaN when there are no images, and a valid index stays valid with images |
| Home.ShoppingHome.Prev | client/src/pages/shopping/home.jsx:128-134 | the button as written: the slide becomes `(slide - 1 + n) % n`, NaN when there are no images, and a valid index stays valid with images |
| Home.ShoppingHome.Tick | client/src/pages/shopping/home.jsx:90-99 | the guarded timer steps the slide forward only with images and keeps a NaN slide NaN |
| Home.ShoppingHome.NavigateToListing | client/src/pages/shopping/home.jsx:60-65 | the stored filters become exactly one section holding just the id, and the page goes to /shop/listing |
| Home.HomeSkipsStockGuard | client/src/pages/shopping/home.jsx:71-84 | where the product dialog refuses an add at full stock, the home page still sends one |
| ProductDetails.HandleAddToCart | client/src/components/shopping/product-details.jsx:26-48 | every request asks for quantity 1; a product not in the cart is always sent; a line with quantity q is sent exactly when q + 1 ≤ totalStock, else the warning quotes q |
| ProductDetails.ZeroStockGuardedByButton | client/src/components/shopping/product-details.jsx:155-161 | at stock 0 the button is disabled, and only that stops a first add |
| ProductDetails.SumBounds | client/src/components/shopping/product-details.jsx:94 | ratings within [lo, hi] sum to within [n·lo, n·hi] |
| ProductDetails.AverageReview | client/src/components/shopping/product-details.jsx:92-95 | 0 without reviews, else the average times the count is the sum of the values |
| ProductDetails.AverageWithinRatings | client/src/components/shopping/product-details.jsx:92-95 | the average lies within the bounds of the ratings |
| ProductDetails.CanSubmitReview | client/src/components/shopping/product-details.jsx:236 | a review can be sent exactly when the message is not whitespace only |
| ProductDetails.ProductDetailsDialog.constructor | client/src/components/shopping/product-details.jsx:17-18 | rating 0 and an empty message |
| ProductDetails.ProductDetailsDialog.HandleRatingChange | client/src/components/shopping/product-details.jsx:24 | only the rating changes |
| ProductDetails.ProductDetailsDialog.HandleMessageChange | client/src/components/shopping/product-details.jsx:230 | only the message changes |
| ProductDetails.ProductDetailsDialog.HandleDialogClose | client/src/components/shopping/product-details.jsx:50-55 | closing resets rating to 0 and message to "" |
| ProductDetails.ProductDetailsDialog.HandleAddReview | client/src/components/shopping/product-details.jsx:57-86 | a blank message sends nothing; otherwise the product id, the user's id and user name, the untrimmed message and the rating are sent, and success resets rating and message |
| Search.TwoEmojiTrigger | client/src/pages/shopping/search.jsx:29 | a keyword of two emoji (length 4) starts a search |
| Search.HandleAddToCart | client/src/pages/shopping/search.jsx:43-71 | quantity 1 always; an empty cart or a new product is always sent; a line is refused exactly when q + 1 > totalStock, quoting the stock; it sends exactly when and what the product dialog sends |
| Search.SearchPage.constructor | client/src/pages/shopping/search.jsx:16-19 | empty keyword, no search triggered |
| Search.SearchPage.OnKeywordChange | client/src/pages/shopping/search.jsx:28-41 | a search is asked for exactly when the trimmed keyword is longer than 3 UTF-16 code units; otherwise the results are reset, the flag is cleared and "no results" is not shown |
| CommonSlice.Without | client/src/store/common-slice/index.js:72-74 | the filter keeps exactly the images whose id differs |
| CommonSlice.WithoutAppend | client/src/store/common-slice/index.js:72-74 | the filter works piece by piece, so the kept images keep their order |
| CommonSlice.WithoutIdempotent | client/src/store/common-slice/index.js:70-76 | deleting twice is deleting once |
| CommonSlice.WithoutAbsent | client/src/store/common-slice/index.js:70-76 | deleting an id no image has changes nothing |
| CommonSlice.FeatureState.constructor | client/src/store/common-slice/index.js:4-7 | not loading, empty list |
| CommonSlice.FeatureState.FetchPending | client/src/store/common-slice/index.js:50-52 | the fetch sets loading |
| CommonSlice.FeatureState.FetchFulfilled | client/src/store/common-slice/index.js:53-56 | the list is replaced by the payload and loading stops |
| CommonSlice.FeatureState.FetchRejected | client/src/store/common-slice/index.js:57-60 | the list is emptied and loading stops |
| CommonSlice.FeatureState.AddFulfilled | client/src/store/common-slice/index.js:63-67 | data is put in front of the unchanged list; without data nothing changes; loading is untouched |
| CommonSlice.FeatureState.DeleteFulfilled | client/src/store/common-slice/index.js:70-76 | success filters the id out; failure changes nothing; loading is untouched |

## Left out

- Text.Utf16Length: a JavaScript string may hold a lone surrogate code unit, which a Dafny `char` cannot; strings are taken to be well-formed UTF-16, for which `trim`, `includes` and `startsWith` over scalars agree with the same tests over code units.
- Rendering: markup, styles, dialogs, sheets, toasts and navigation effects are not modelled; each handler's decision and state change is. `AdminOrderDetails.Renders` only records that the dialog renders nothing without an order.
- I/O: the axios thunks, Express wiring, cookies and the Mongo connection. A request is the value a handler dispatches; a response is a parameter (`success`, a payload).
- Persistence: the user and product collections are sequences in creation order; ids are naturals standing for Mongo ids. The `createdAt` sort is modelled as reverse creation order. A database failure is modelled where a handler answers it: the `fault` or `saveFails` parameter of a save, `deleteFails` for `findByIdAndDelete`, and `findFails` for the login's `findOne`; the other reads (the registration's two `findOne` lookups, `find`, `findById`) are assumed to succeed. The store's casting of values on save (a string price to a number) is not modelled; fields keep the `Js.Value` they were given.
- Foreign code: bcrypt hashing and comparison, JWT signing and verification, and a rule's regular expression are function parameters about which nothing is assumed. The Cloudinary upload and the image-upload component are represented only by the URL they set.
- Schema defaults: the role a new user gets lives in the user schema, which is not part of this model; it is the store's `defaultRole`.
- Timers: the 10-second carousel interval and the 500 ms search debounce. Only the step they perform is modelled; the search page writes the keyword into the URL at once rather than after the debounce.
- The search results themselves, the cart contents and the order list come from slices that are not part of this model; they are parameters or fields set by the page.
- The logout handler on the server and the refresh of the order list after a successful checkout (it reads `user._id`, which the session user does not have) are not modelled.
- Dates: `orderDate` and `orderUpdateDate` come from the clock and are left out of `Checkout.OrderData`.
- Numbers: prices, stock and quantities are integers and the average rating a real; float precision, `toFixed` and currency formatting are not modelled. `Js.Number` has only the special value NaN, the only one the carousel can produce.
- Input types: request fields are strings or absent. A non-string user name in a registration (on which `trim` throws) is not modelled.
- Login with the wrong e-mail case or extra whitespace is modelled only through `AuthController.UntrimmedLoginFails`; the store's exact-match semantics of `findOne` is that of sequence equality.
- AuthController.Login: the e-mail is always a string; a login without one (a `findOne` on an undefined e-mail) is not modelled, because what the store then returns depends on the driver's handling of undefined query values.
- App.InSubtree: the subtree bases /auth, /admin and /shop, the root and /unauth-page are matched exactly; the router also matches them in another letter case or with trailing slashes (/SHOP/home, /unauth-page/), which the model sends to the 404 page. Only the child routes are matched without regard to case and trailing slashes, and only for ASCII letters.
- App.Child: the `*` route's relative redirect (`"dashboard"` under /admin) is given as its resolved path.
- PriceZeroOnlyByEmptyString: states the merge on the values as sent; the store's number cast, which saves a kept string "0" as the price 0, is not modelled.
- StockNeverZeroed: states the merge on the values as sent; the store's number cast, which saves a kept string "0" as the stock 0, is not modelled.
- The admin page's title tests `currentEditedId !== null` while its submit tests truthiness; with ids that are never empty strings the two agree, and the title is not modelled.

## Findings

| source | as written | input that shows it | evidently intended | confidence | as-written member | corrected member |
|---|---|---|---|---|---|---|
| client/src/components/common/check-auth.jsx:30 | reads `user.role` without optional chaining after testing only `isAuthenticated` | the state after a successful registration, `isAuthenticated` true and no user (the server's 201 response carries no user, client/src/store/auth-slice/index.js:101-102) on /auth/login or /auth/register | `user?.role`, as on lines 21, 35 and 38, redirecting to /shop/home | not executed | CheckAuth.CrashAfterRegistration | CheckAuth.DecideSafe |
| client/src/pages/shopping/home.jsx:131-132 | the previous and next buttons compute `% featureImageList.length` without the `length > 0` test the interval makes at line 92 | with no feature images, pressing either button sets the slide to NaN, and NaN survives every later step once images arrive, so no slide is ever shown | the same `length > 0` guard on the buttons | not executed | Home.ButtonsWithoutImagesGiveNaN | Home.GuardedNext |
