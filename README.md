# Storefront client logic, modelled in Dafny

This project models the client-side rules of a small Vietnamese merchandise storefront (a
Next.js application). It covers:

- the shopping cart kept by the cart context;
- the cart and checkout pages with their totals, guards and payment request;
- the payment-result page that polls the order status until it settles;
- the admin route guard;
- the HTTP client's token and 401 interceptors;
- the customer pages: order lookup by phone, order history, address book, login, auth callback and contact form;
- the admin pages: login and order list.

State that the application changes step by step is modelled by classes:

- the cart store (`CartContext.CartStore`, a `seq` of lines);
- browser storage (`Storage.KeyValueStore`, a string map);
- the checkout, payment-result, login and admin-login pages;
- the request config mutated by the interceptor.

Handlers that only compute a new page state are modelled by functions over page-state datatypes.

A formatted price such as "100.000đ" is read the way the application reads it: the digits are
kept and parsed. A price with no digit at all gives NaN in the application. Here it gives
`None`, and `None` spreads through every total that includes it.

Files: `wrappers.dfy` (Option), `text.dfy` (digits, decimal numerals, substring search,
lower-casing, blank test), `storage.dfy`, `locations.dfy` (province reference data),
`paging.dfy` (shared previous/next buttons), `login_redirect.dfy` (the post-login target slot),
and one file per page or module of the application.

## Model

| member | source | states |
|---|---|---|
| CartContext.CartStore.AddToCart | src/contexts/CartContext.tsx:51-61 | a matching (id, customization) line grows by the quantity with the length unchanged; a new key appends exactly one line at the end; key uniqueness is preserved; with unique keys the item count rises by exactly the quantity |
| CartContext.AddedExisting | src/contexts/CartContext.tsx:53-57 | merging into an existing key raises every matching line by q and leaves every other line unchanged in its position, length unchanged |
| CartContext.AddedKeepsKeysUnique | src/contexts/CartContext.tsx:53-59 | no two lines share an (id, customization) key after an add if none did before |
| CartContext.AddedItemCount | src/contexts/CartContext.tsx:51-61 | with unique keys, getTotalItems after adding q is the old count plus q |
| CartContext.AddedAllOneLine | src/contexts/CartContext.tsx:51-61 | repeated adds of one new key yield a single appended line whose quantity is the sum of the requested quantities |
| CartContext.PlainAndCustomizedStayApart | src/contexts/CartContext.tsx:53 | the same product plain and embroidered stays two lines, and the total includes the customization price once |
| CartContext.AddThenIncrement | src/contexts/CartContext.tsx:51-61 | adding 1 then 2 of a "100.000đ" product gives one line of quantity 3 totalling 300000 |
| CartContext.CartStore.RemoveFromCart | src/contexts/CartContext.tsx:63-65 | exactly the lines with another id remain, whatever the customization; key uniqueness is preserved |
| CartContext.WithoutMembers | src/contexts/CartContext.tsx:64 | a line is kept iff it was present and its product id differs from the removed id |
| CartContext.WithoutConcat | src/contexts/CartContext.tsx:64 | removal keeps order: it distributes over concatenation |
| CartContext.WithoutKeepsKeysUnique | src/contexts/CartContext.tsx:64 | removal preserves key uniqueness |
| CartContext.CartStore.UpdateQuantity | src/contexts/CartContext.tsx:67-74 | q <= 0 has exactly the effect of removeFromCart; q > 0 keeps the length; key uniqueness is preserved |
| CartContext.UpdatedPositive | src/contexts/CartContext.tsx:73 | with q > 0 every line with the id gets quantity q and every other line is unchanged in place |
| CartContext.RequantifiedKeepsKeysUnique | src/contexts/CartContext.tsx:73 | setting quantities by id preserves key uniqueness |
| CartContext.CartStore.ClearCart | src/contexts/CartContext.tsx:76-78 | the cart becomes empty (so a second clear changes nothing) |
| CartContext.ItemCountConcat | src/contexts/CartContext.tsx:80-82 | getTotalItems is additive over concatenation |
| CartContext.PriceTotalConcat | src/contexts/CartContext.tsx:84-90 | getTotalPrice is additive over concatenation (NaN absorbing) |
| CartContext.EmptyCartTotals | src/contexts/CartContext.tsx:80-90 | both totals are 0 on an empty cart |
| CartContext.AddNumbers | src/contexts/CartContext.tsx:88 | a sum is a number iff both operands are numbers |
| CartContext.UnitPriceOfShown | src/contexts/CartContext.tsx:86 | a price written as the numeral of n followed by non-digit decoration reads back as n |
| CartContext.UnitPriceExample | src/contexts/CartContext.tsx:86 | "100.000đ" reads as 100000 |
| Text.Digits | src/contexts/CartContext.tsx:86 | the result holds only digits and is never longer than the input; a one-character string is kept iff its character is a digit (with DigitsConcat this fixes the result as the input's digits in order) |
| Text.DigitsMembers | src/contexts/CartContext.tsx:86 | a character occurs in the result iff it occurs in the input and is a digit |
| Text.DigitsConcat | src/contexts/CartContext.tsx:86 | stripping non-digits distributes over concatenation |
| Text.DecimalValueOfShow | src/contexts/CartContext.tsx:86 | parsing the decimal numeral of n gives n back |
| CartPage.ShippingFee | src/app/cart/page.tsx:17 | the fee is 30000 exactly when the total is a positive number, and 0 otherwise (NaN included) |
| CartPage.FinalTotal | src/app/cart/page.tsx:16-19 | positive totals gain exactly 30000, totals <= 0 are unchanged, NaN stays NaN |
| CartPage.EmptyCartFinalTotal | src/app/cart/page.tsx:16-19 | an empty cart ships free and its final total is 0 |
| CartPage.LineTotalsSum | src/app/cart/page.tsx:86-88 | the displayed line totals are the cart's line totals and add up to getTotalPrice |
| CartPage.CheckoutTarget | src/app/cart/page.tsx:25-30 | nothing happens iff the cart is empty, otherwise the target is /checkout |
| CartPage.MinusOnLastRemovesProduct | src/app/cart/page.tsx:106 | "-" on quantity 1 removes every line of that product id and keeps all others |
| CartPage.DeleteRemovesProduct | src/app/cart/page.tsx:114 | delete removes by product id only |
| CartPage.PlusKeepsLines | src/app/cart/page.tsx:110 | "+" keeps the length and sets every line of the product to quantity + 1 |
| Checkout.FinalTotal | src/app/checkout/page.tsx:66-69 | the final total is the cart total plus 30000 for every total, NaN stays NaN |
| Checkout.FinalTotalsAgreeOnPositiveTotals | src/app/checkout/page.tsx:66-69 | checkout and cart quote the same final total except on totals <= 0 |
| Checkout.EmptyCartRedirect | src/app/checkout/page.tsx:190-193 | an empty cart, and only an empty cart, sends the browser to /cart |
| Checkout.ProvinceChanged | src/app/checkout/page.tsx:82-105 | selecting or clearing a province clears district and the selected district, and loads that province's wards (else none) |
| Checkout.DistrictChanged | src/app/checkout/page.tsx:107-113 | the selected district and the district field follow the option |
| Checkout.DistrictChangedConsistent | src/app/checkout/page.tsx:107-113 | choosing one of the offered districts (or clearing it) keeps options, province field and district field consistent with the selections |
| Checkout.ProvinceChangedConsistent | src/app/checkout/page.tsx:82-105 | after a province change, the options, the province field and the district field agree with the selections |
| Checkout.WardOptionsAt | src/app/checkout/page.tsx:95-99 | the district options are the province's wards one to one, in order |
| Checkout.QuantityControlsNeverRemove | src/app/checkout/page.tsx:275-279 | the checkout quantity controls keep every line's place, product and customization |
| Checkout.OrderDataMatchesCart | src/app/checkout/page.tsx:133-154 | the payload has one item per cart line in order; its items add up to the totalPrice it carries; finalTotal is that plus the fee |
| Checkout.FormGuard | src/app/checkout/page.tsx:117-125 | payment proceeds iff all five fields are filled; an empty name, phone or address gives the missing-fields message; otherwise an empty province or district gives the missing-location message |
| Checkout.ErrorNotices | src/app/checkout/page.tsx:176-184 | an error list gives one notice per entry, in order (none for an empty list); otherwise one notice: the backend message when non-empty, else the generic text |
| Checkout.CheckoutPage.HandlePayment | src/app/checkout/page.tsx:115-188 | a guard failure sends nothing and changes no flag; otherwise one request; the pending code is stored and the browser redirected only on success with a URL; every failure resets isProcessing |
| Locations.FindProvince | src/app/checkout/page.tsx:93 | the result is the first province with the codename, none iff there is none |
| PaymentSuccess.PaymentSuccessPage.Poll | src/app/payment/success/page.tsx:19-66 | an absent or empty order code goes home with no request; stopped polling checks nothing; otherwise one request per pending answer plus the one that ends the run; the cart and the pending code are cleared iff COMPLETED is reached; polling and loading end iff a terminal answer is reached |
| PaymentSuccess.Settled | src/app/payment/success/page.tsx:50-52 | the run continues through exactly the leading PENDING/PROCESSING answers |
| PaymentSuccess.SettledIsLoopExit | src/app/payment/success/page.tsx:33-63 | the polling loop stops after exactly Settled(replies) answers, scheduling another check only on a pending answer |
| PaymentSuccess.SettledIsFirstStop | src/app/payment/success/page.tsx:50-52 | the count of checks is the index of the first answer that is not pending |
| PaymentSuccess.CompletedIffCleared | src/app/payment/success/page.tsx:44-57 | the cart is cleared iff the run ends on COMPLETED, which is also when the page confirms |
| PaymentSuccess.PendingTwiceThenCompleted | src/app/payment/success/page.tsx:44-52 | PENDING, PENDING, COMPLETED takes three requests and clears the cart |
| PaymentSuccess.FailedAtOnce | src/app/payment/success/page.tsx:53-57 | a FAILED first answer takes one request, clears nothing, ends loading |
| PaymentSuccess.UnsuccessfulAnswerStalls | src/app/payment/success/page.tsx:40-58 | an answer with success false schedules nothing and leaves loading on |
| PaymentSuccess.PaymentSuccessPage.Render | src/app/payment/success/page.tsx:77-98 | the spinner shows iff loading; the confirmation shows iff loading ended with a COMPLETED status; in every other case the page redirects to /payment/failed?orderCode=<code> |
| Middleware.Route | src/middleware.ts:4-34 | "/admin" and "/admin/" go to the login; the login page goes to the dashboard iff the cookie is set; other admin paths pass iff the cookie is set; nothing redirects to itself |
| Middleware.Handle | src/middleware.ts:36-38 | paths outside "/admin/:path*" never reach the guard |
| Middleware.RedirectsSettle | src/middleware.ts:8-33 | following the redirects reaches a page within two hops |
| ApiClient.TokenKey | src/lib/api.ts:16-19 | a URL containing "/admin/" uses admin_token, any other uses token |
| ApiClient.WithAuthorization | src/lib/api.ts:30-32 | the bearer header is set iff a non-empty token exists, otherwise the headers are unchanged |
| ApiClient.OnRequest | src/lib/api.ts:13-34 | the headers become the old headers with the bearer of the selected token |
| ApiClient.StorageAfterError | src/lib/api.ts:63-116 | only a 401 in a browser removes keys: the admin pair for admin URLs, the user pair otherwise |
| ApiClient.UnauthorizedKeepsOtherSession | src/lib/api.ts:69-89 | a user-side 401 never removes the admin credentials, and the reverse |
| ApiClient.OnResponseError | src/lib/api.ts:53-117 | storage is updated as above; the admin login redirect happens iff an admin 401 occurs off the admin login page |
| OrderCheck.PhonePatternShort | src/app/orders/check/page.tsx:108 | the unanchored pattern matches iff one token directly precedes eight digits and a word boundary |
| OrderCheck.PhoneAcceptedIsPattern | src/app/orders/check/page.tsx:108-109 | the executable phone test agrees with the pattern |
| OrderCheck.PlaceholderPasses | src/app/orders/check/page.tsx:108 | "0912345678" passes |
| OrderCheck.BarIsAcceptedAsPrefix | src/app/orders/check/page.tsx:108 | the literal '\|' in the class makes "0\|" a token: "0\|" followed by any eight digits and a word boundary passes |
| OrderCheck.SurroundingTextAccepted | src/app/orders/check/page.tsx:108 | text around a valid number is ignored when a word boundary follows it |
| OrderCheck.Search | src/app/orders/check/page.tsx:99-132 | blank and non-matching phones are refused with no request; otherwise one request whose data (or none) replaces the orders, and a failure empties them |
| OrderCheck.DisplayedSubtotalConcat | src/app/orders/check/page.tsx:297 | the displayed subtotal adds up over any split of the items |
| OrderCheck.MissingSubtotalCountsZero | src/app/orders/check/page.tsx:297 | an item without subtotal contributes 0 |
| OrderCheck.DisplayedShippingOf | src/app/orders/check/page.tsx:301 | the shipping line is 30000 whatever the order says |
| OrderCheck.LabelOr | src/app/orders/check/page.tsx:136 | a known code shows its label, an unknown code shows itself |
| OrderCheck.UnknownStatusShowsCode | src/app/orders/check/page.tsx:136-145 | unknown status and payment-status codes show the raw code |
| AdminOrders.OnMount | src/app/admin/orders/page.tsx:23-32 | without an admin token the page leaves for the admin login |
| AdminOrders.TotalPages | src/app/admin/orders/page.tsx:39 | the page count is the least n with total <= n * limit; none when the limit is 0 |
| AdminOrders.FilteredMembers | src/app/admin/orders/page.tsx:63 | an order is shown iff its lower-cased number contains the lower-cased term |
| AdminOrders.FilteredConcat | src/app/admin/orders/page.tsx:63 | filtering distributes over concatenation and keeps a single order iff it matches, so the visible list keeps the original order and multiplicity |
| AdminOrders.EmptySearchKeepsAll | src/app/admin/orders/page.tsx:63 | an empty term shows every order in order |
| AdminOrders.ItemPreview | src/app/admin/orders/page.tsx:131-136 | at most the first two items, and "+(n-2)" exactly when n > 2 |
| AdminOrders.StatusLabel | src/app/admin/orders/page.tsx:48-58 | a known status shows its label, an unknown one its raw code |
| Paging.PrevPage | src/app/admin/orders/page.tsx:157 | never below 1, one back from any later page |
| Paging.NextPage | src/app/admin/orders/page.tsx:163 | never above totalPages, one forward from any earlier page |
| Paging.PagingStaysInRange | src/app/shop/page.tsx:141-157 | while the bar is shown both buttons stay within 1..totalPages and undo each other |
| Shop.ToLocal | src/app/shop/page.tsx:24-35 | every field is copied and the price becomes priceFormatted |
| Shop.ConvertedPriceReadsBack | src/app/shop/page.tsx:24-35 | a converted product's cart price is the backend price when priceFormatted is its numeral plus decoration |
| Shop.Query | src/app/shop/page.tsx:55-60 | the request carries the page, limit 12, the sort, and no category iff none is selected |
| Shop.PageNumbersAscending | src/app/shop/page.tsx:147 | the page buttons are exactly 1..totalPages in ascending order |
| Shop.OnLoadError | src/app/shop/page.tsx:65-79 | sample data is used iff the message names a network error and the samples load |
| MyOrders.CanCancelExactly | src/app/orders/my-orders/page.tsx:95-97 | cancelling is allowed exactly for paid, awaiting_payment and pending |
| MyOrders.StyleOf | src/app/orders/my-orders/page.tsx:41-50 | a known status uses its configuration, an unknown one the pending configuration |
| MyOrders.Loaded | src/app/orders/my-orders/page.tsx:80-93 | the list is replaced only by a reply that carries one; a failure keeps it and raises a notice |
| MyOrders.CancelOrder | src/app/orders/my-orders/page.tsx:99-116 | nothing happens without confirmation; otherwise one request, and a reload iff it succeeds |
| MyOrders.DetailsOf | src/app/orders/my-orders/page.tsx:186-249 | an order shows details iff it is the expanded one; they list price × quantity for each item in order, and offer cancelling iff the status is paid, awaiting_payment or pending |
| MyOrders.Toggle | src/app/orders/my-orders/page.tsx:186-191 | clicking the open order closes it, clicking any other opens that one instead |
| MyOrders.ToggleTwice | src/app/orders/my-orders/page.tsx:191 | two clicks on one header restore an open order and close any other |
| MyOrders.AtMostOneExpanded | src/app/orders/my-orders/page.tsx:186 | in a list with distinct ids, at most one order shows its details |
| MyOrders.ToggleShowsDetails | src/app/orders/my-orders/page.tsx:186-191 | after clicking an order's header exactly that order shows details if it was collapsed, and none does if it was open |
| LoginRedirect.Target | src/app/login/page.tsx:58 | the stored target when non-empty, else "/" |
| LoginRedirect.TakeTarget | src/stores/user-store.ts:23-33 | reads the target and removes the stored entry, nothing else |
| LoginRedirect.RequireSession | src/app/orders/my-orders/page.tsx:62-78 | without a session the page remembers itself and goes to /login; with one nothing is stored (the address book makes the same check at src/app/addresses/page.tsx:88-104) |
| LoginRedirect.RememberedPageIsTarget | src/app/addresses/page.tsx:95 | a page remembered on the way to /login is the target after login |
| Login.RegisterGuard | src/app/login/page.tsx:64-74 | registration passes iff the passwords match and have at least 6 characters; a mismatch is reported first |
| Login.ErrorText | src/app/login/page.tsx:54 | the error's own message when non-empty, else the fallback |
| Login.LoginPage.OnMount | src/app/login/page.tsx:28-38 | a signed-in visitor is sent to the stored target, which is cleared |
| Login.LoginPage.EmailAuth | src/app/login/page.tsx:45-91 | sign-in sends one request and redirects iff accepted; registration runs the guards first, sends one request, and switches to login mode iff accepted; loading ends |
| Login.LoginPage.ToggleMode | src/app/login/page.tsx:247-249 | the mode flips and all four fields are emptied |
| Login.ToggledFormFailsRegistration | src/app/login/page.tsx:64-74 | an emptied form cannot pass the registration guards |
| Login.LoginPage.OAuthLogin | src/app/login/page.tsx:93-107 | the provider button spins until the browser leaves; a failure stops it and names the provider |
| Login.LoginPage.ForgotPassword | src/app/login/page.tsx:109-128 | an empty email is refused with no request; otherwise one request and loading ends |
| AuthCallback.Decide | src/app/callback/page.tsx:19-72 | lookup errors and throws fail with no redirect; a session succeeds to the target after 1000 ms; signup goes to /login after 2000 ms; recovery to /reset-password after 1000 ms; anything else fails to /login after 2000 ms |
| AuthCallback.HandleCallback | src/app/callback/page.tsx:28-41 | only a found session reads and clears the stored target |
| AuthCallback.ScheduledTargetsLeave | src/app/callback/page.tsx:39-65 | every scheduled redirect leaves the callback page |
| AdminLogin.FailureNotice | src/app/admin/login/page.tsx:63-71 | 401 first, then 403, then the backend message, then the generic text |
| AdminLogin.AdminLoginPage.Submit | src/app/admin/login/page.tsx:26-75 | empty fields are refused with no request; success stores admin_token and admin_user, sets the cookie with max-age 604800 and schedules the dashboard; failure stores nothing; isLoading ends false |
| AdminLogin.LoginCookieOpensDashboard | src/middleware.ts:13-33 | the cookie set at login lets the dashboard through and turns the login page into a dashboard redirect |
| AdminLogin.StoredTokenOpensOrders | src/app/admin/orders/page.tsx:25-31 | with the stored token the order list loads |
| Contact.Submit | src/app/contact/page.tsx:30-54 | a missing name, email or phone is refused with no request; success empties all four fields; failure keeps them; isSubmitting ends false |
| Contact.NoDoubleSend | src/app/contact/page.tsx:43-48 | after an accepted message a second press sends nothing; after a refused one it resends the same form |
| Addresses.ProvinceChanged | src/app/addresses/page.tsx:131-152 | a null choice changes nothing; a choice sets province and code, clears district and ward, and loads the matching province's wards (else none) |
| Addresses.DistrictChanged | src/app/addresses/page.tsx:154-164 | a null choice changes nothing; a choice sets the district fields and clears the ward fields only |
| Addresses.PickProvinceThenDistrict | src/app/addresses/page.tsx:131-164 | the two choices leave the picked codes, an empty ward, and the typed fields untouched |
| Addresses.Reset | src/app/addresses/page.tsx:166-182 | all fields empty, not default, type home, no options, not editing |
| Addresses.OpenAddForm | src/app/addresses/page.tsx:184-187 | an empty form, shown, not editing |
| Addresses.OpenEditForm | src/app/addresses/page.tsx:189-218 | the form holds the address, the options are the province's wards when found and unchanged otherwise |
| Addresses.EditShowsStoredAddress | src/app/addresses/page.tsx:191-203 | a complete stored address reappears field for field in the editor |
| Addresses.Submit | src/app/addresses/page.tsx:220-246 | an incomplete form is refused with no request; otherwise update when editing and add when not; success closes and resets the form and reloads; failure keeps it |
| Addresses.EditThenSaveUpdates | src/app/addresses/page.tsx:189-236 | saving an opened complete address sends an update of that very address |
| Addresses.NewFormIsRefused | src/app/addresses/page.tsx:184-226 | a fresh add form is refused until filled |
| Addresses.Loaded | src/app/addresses/page.tsx:115-129 | a reply with addresses replaces the list, one without keeps it, a failure empties it |
| Addresses.Delete | src/app/addresses/page.tsx:248-264 | nothing without confirmation; otherwise one request and a reload iff it succeeds |
| Addresses.SetDefault | src/app/addresses/page.tsx:266-275 | one request, a reload iff it succeeds |
| Addresses.TypeLabel | src/app/addresses/page.tsx:288-297 | home, office and other have their own captions |
| Addresses.ProvinceOptions | src/app/addresses/page.tsx:307-311 | one option per province, in order |

## Left out

- Cart persistence: the cart is saved to and read back from `localStorage` as JSON, including the recovery from a corrupt saved cart (src/contexts/CartContext.tsx:32-49). That is serialisation outside the store's rules.
- The merge key compares customizations with `JSON.stringify`. It is modelled as structural equality of the customization value. The two agree for customizations whose optional text is either present or absent in the same way.
- The default quantity 1 of addToCart is the caller's argument here; the store takes the quantity explicitly.
- CartContext.UnitPrice: `parseFloat` of the digit string is exact only up to 2^53. The model uses unbounded naturals, and rounding of larger prices is not modelled.
- All number and date formatting (`Intl.NumberFormat`, `toLocaleString`) is display-only.
- Text.ToLower: lower-cases ASCII letters only. JavaScript's `toLowerCase` also lower-cases other Unicode letters, so the admin search is modelled for ASCII order numbers and terms.
- Text.IsBlank: `trim` is modelled with ASCII whitespace plus NBSP and BOM, not every Unicode space separator.
- Login.RegisterGuard: counts characters, where JavaScript's `length` counts UTF-16 code units. The two differ only for characters outside the Basic Multilingual Plane.
- AdminOrders.TotalPages: a zero limit gives NaN or Infinity in JavaScript. The model returns None for it and does not track which of the two.
- PaymentSuccess.PaymentSuccessPage.Poll: the 2-second timer, the unmount cleanup, and the effect re-running when `isPolling` changes are event-loop behaviour. Polling is a loop over the sequence of answers, each scheduled check is the next iteration, and the cleanup's `setIsPolling(false)` is not modelled.
- Network transport (axios, the Supabase auth client, the payment provider) is left out. Every reply is an input value: success, error object or thrown exception.
- The interceptors' logging, including the 400, 404 and 500 branches that only log before re-rejecting. Re-rejection itself is implicit: `OnResponseError` returns no value for the error.
- Toast notifications are modelled as an appended list of message strings. `window.location` and router navigation are modelled as a returned or stored redirect target.
- The phone lookup's `encodeURIComponent` of the query is left out; the request records the raw phone.
- The JSON encoding of the admin user record is an input string (`userJson`).
- The shop's import of bundled sample products is reduced to whether it loads.
- The checkout's province options built on mount, and the order-history and address-book spinners driven by the user store, are left out as pure rendering.
