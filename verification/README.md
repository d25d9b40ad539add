# Social-boost storefront — a verified Dafny model

This project models the business logic of the NethminaOFC storefront. The storefront is a single-page shop where
customers buy TikTok, YouTube, Instagram and Facebook boosts and an administrator manages the orders. The model covers:

- the price table and its lookup;
- the WhatsApp-number validator and the order- and customer-id generators;
- the cart hook;
- the order store, order submission, and the user and session store;
- the wizard and checkout rules of the main component;
- the admin list: filter, search, pages and CSV export;
- the validation chain of the login and registration form.

The source files map to modules as follows. Each module's members carry the contracts; lemmas relate them.

| module | source file |
|---|---|
| `Types` | `types.ts` |
| `Constants` | `constants.ts` |
| `Utils` | `utils.ts` |
| `CartHook` | `hooks/useCart.ts` |
| `DbService` | `services/dbService.ts` |
| `OrderService` | `services/orderService.ts` |
| `AuthService` | `services/authService.ts` |
| `App` | `App.tsx` |
| `AdminDashboard` | `components/AdminDashboard.tsx` |
| `AuthForms` | `components/AuthForms.tsx` |

`Seqs` specifies, once, the JavaScript primitives the source leans on:
- `filter`;
- `findIndex`;
- `String.prototype.includes`;
- `slice`.

Each is given with its own contract.

Two kinds of source code are modelled in two ways:
- State the source changes in place becomes a class with fields, and methods with `modifies` clauses. This covers the cart, the stored orders, the stored users and session, and the state of the three components.
- Pure computations become functions. Examples are the new cart list, the price, the filtered list and the CSV rows.

Each state-changing method's `ensures` ties its new state to those functions. The functions' properties are proved as lemmas.

The environment is replaced by parameters:
- **Randomness.** `Math.random()` becomes a sequence of draws, each an index 0..61 into the alphabet. Registration's retry loop takes a finite supply of twelve-draw attempts, and requires that one of them yields an unused id. `crypto.randomUUID()` becomes the parameter `freshId`.
- **Time.** The order date becomes a parameter.
- **Storage.** `localStorage` becomes object fields. The JSON round trip is the identity on values. A throwing storage write becomes the flag `persistFails`.
- **Callbacks and dialogs.** The `onSuccess` callback is the user `HandleSubmit` returns. The answer to the delete confirmation dialog is the parameter `confirmed`.

## Model

| member | source | states |
|---|---|---|
| Constants.CalculatePrice | constants.ts:94-104 | never negative; 0 when platform, type or label is missing or the label is empty; positive exactly for a triple in the table, and then equal to its entry |
| Constants.TiktokPricesPositive | constants.ts:70-76 | every TikTok price is positive and keyed by a non-empty label |
| Constants.FacebookPricesPositive | constants.ts:77-81 | every Facebook price is positive and keyed by a non-empty label |
| Constants.YoutubePricesPositive | constants.ts:82-86 | every YouTube price is positive and keyed by a non-empty label |
| Constants.InstagramPricesPositive | constants.ts:87-91 | every Instagram price is positive and keyed by a non-empty label |
| Constants.TiktokOptionsPriced | constants.ts:45-51 | every TikTok quantity option has a TikTok price |
| Constants.FacebookOptionsPriced | constants.ts:52-56 | every Facebook quantity option has a Facebook price |
| Constants.YoutubeOptionsPriced | constants.ts:57-61 | every YouTube quantity option has a YouTube price |
| Constants.InstagramOptionsPriced | constants.ts:62-66 | every Instagram quantity option has an Instagram price |
| Constants.PricesPositive | constants.ts:69-92 | every entry of the price table is positive and keyed by a non-empty label |
| Constants.EmptyLabelUnpriced | constants.ts:95 | the table has no entry under the empty label, which `calculatePrice` rejects before the lookup |
| Constants.PriceExamples | constants.ts:71-84 | tiktok/Likes/"1k" costs 150 and youtube/Views/"2k" costs 1200 |
| Constants.AbsentIsZero | constants.ts:97-103 | youtube/Followers prices to 0 for every label, as does a label the table lacks |
| Constants.OptionsInPriceList | constants.ts:44-92 | every label the quantity step offers has an entry in the price table |
| Constants.QuantityOptionsArePriced | constants.ts:44-92 | every label the quantity step offers has a positive price |
| Constants.AllowedBoostsHaveOptions | constants.ts:9-67 | every boost a platform card allows has a list of quantity options |
| Constants.PlatformsListedOnce | constants.ts:9-42 | each of the four platform ids appears exactly once among the platform cards |
| Utils.AlphabetIsAlphanumeric | utils.ts:7 | the alphabet has 62 characters, and a character is in it exactly when it is an ASCII letter or digit |
| Utils.DigitRunIff | utils.ts:21 | `^\d{n}$` accepts exactly the strings of length n made of digits |
| Utils.ValidateWhatsAppNumber | utils.ts:20-23 | `^\d{11}$`; characterised by `Utils.WhatsAppNumberIff` |
| Utils.WhatsAppNumberIff | utils.ts:20-23 | the validator accepts a string iff it has exactly 11 characters, all digits |
| Utils.WhatsAppNumberRejects | utils.ts:21 | strings of length 10 or 12, or with any non-digit, are rejected |
| Utils.WhatsAppNumberExample | utils.ts:18 | "94712345678" passes |
| Utils.WhatsAppNumberCounterexamples | utils.ts:18 | "9471234567a" (a letter) and "9471234567" (ten digits) fail |
| Utils.DigitsOnly | components/AuthForms.tsx:129 | the stripped input holds only digits and keeps every digit as often as it occurs, in order; an all-digit input is unchanged |
| Utils.DigitsOnlyIdempotent | components/AuthForms.tsx:129 | stripping twice gives the same result as stripping once |
| Utils.Pick | utils.ts:9-11 | one character per draw, the one the draw selects, and always alphanumeric |
| Utils.GenerateOrderId | utils.ts:6-13 | the id has 15 characters, all alphanumeric, one per draw |
| Utils.GenerateCustomerId | utils.ts:31-39 | the id is "CUS" followed by 12 alphanumeric characters, 15 in total |
| CartHook.Total | hooks/useCart.ts:50 | the reduce over price times count; its properties are `CartHook.SumsAppend`, `SumsOfTwo` and `TotalExample` |
| CartHook.Count | hooks/useCart.ts:51 | the reduce over counts; bounded below by `CartHook.CountAtLeastLines` |
| CartHook.SumsAppend | hooks/useCart.ts:50-51 | the total and the count split over concatenation |
| CartHook.CountAtLeastLines | hooks/useCart.ts:50-51 | with every count at least 1, the item count is at least the number of lines |
| CartHook.SumsOfTwo | hooks/useCart.ts:50-51 | a two-line cart totals the sum of each price times its count, and counts the sum of the counts |
| CartHook.TotalExample | hooks/useCart.ts:50-51 | tiktok Likes 1k once plus youtube Views 2k twice total 2550 for 3 units |
| CartHook.Removed | hooks/useCart.ts:30-32 | no line with the id remains; every other line remains as often as it occurred, in the original order; without that id the cart is unchanged |
| CartHook.ClampedCount | hooks/useCart.ts:38 | the new count is max(1, count + delta) |
| CartHook.WithQuantity | hooks/useCart.ts:34-44 | same length; matching lines get the clamped count and no other change; other lines are unchanged |
| CartHook.WithQuantityKeepsCountsPositive | hooks/useCart.ts:38 | an update never drives a count below 1 |
| CartHook.ChangesKeepCountsPositive | hooks/useCart.ts:34-44 | no sequence of increments and decrements drives a count below 1 or changes the number of lines |
| CartHook.Cart.constructor | hooks/useCart.ts:5-6 | the cart starts empty, with the drawer closed |
| CartHook.Cart.CartTotal | hooks/useCart.ts:50 | `cartTotal`, the `Total` of the cart's lines; `CartHook.Cart.AddToCart` and `ClearCart` state how it moves |
| CartHook.Cart.CartCount | hooks/useCart.ts:51 | `cartCount`, the `Count` of the cart's lines; `CartHook.Cart.AddToCart` and `ClearCart` state how it moves |
| CartHook.Cart.AddToCart | hooks/useCart.ts:25-28 | the item goes at the end and earlier items are kept; the drawer opens; the total and count grow by exactly the item's amount |
| CartHook.Cart.RemoveFromCart | hooks/useCart.ts:30-32 | the lines become `Removed(lines, id)`; the drawer is untouched |
| CartHook.Cart.UpdateQuantity | hooks/useCart.ts:34-44 | the lines become `WithQuantity(lines, id, delta)`; the drawer is untouched |
| CartHook.Cart.ClearCart | hooks/useCart.ts:46-48 | the cart is empty, with total 0 and count 0 |
| CartHook.Cart.SetIsOpen | hooks/useCart.ts:56 | only the drawer flag changes |
| DbService.WithStatus | services/dbService.ts:19-26 | the list `updateOrderStatus` writes back; specified by `DbService.WithStatusEffect` |
| DbService.WithAdminNote | services/dbService.ts:28-35 | the list `updateOrderAdminNote` writes back; specified by `DbService.WithAdminNoteEffect` |
| DbService.WithStatusEffect | services/dbService.ts:19-26 | only the status of the first order with the id changes; with no such order nothing changes |
| DbService.WithAdminNoteEffect | services/dbService.ts:28-35 | only the note of the first order with the id is overwritten; with no such order nothing changes |
| DbService.UpdatesKeepContent | services/dbService.ts:19-35 | neither update alters any order's items, total, ids or payment |
| DbService.WithoutOrder | services/dbService.ts:37-41 | no order with the id remains; all others remain as often as they occurred, in order; without that id the list is unchanged |
| DbService.OrdersOfCustomer | services/dbService.ts:43-46 | exactly the stored orders of the customer, each as often as stored, in stored order |
| DbService.DeletedOrderIsGone | services/dbService.ts:37-46 | after a delete the id is in neither the full list nor any customer's list |
| DbService.OrderStore.constructor | services/dbService.ts:14-17 | with nothing stored, the store is empty |
| DbService.OrderStore.SaveOrderToDb | services/dbService.ts:7-12 | the new order is at index 0 and the previous orders follow unchanged |
| DbService.OrderStore.GetAllOrders | services/dbService.ts:14-17 | returns the stored list |
| DbService.OrderStore.UpdateOrderStatus | services/dbService.ts:19-26 | the store becomes `WithStatus(old, id, status)` |
| DbService.OrderStore.UpdateOrderAdminNote | services/dbService.ts:28-35 | the store becomes `WithAdminNote(old, id, note)` |
| DbService.OrderStore.DeleteOrder | services/dbService.ts:37-41 | the store becomes `WithoutOrder(old, id)` |
| DbService.OrderStore.GetOrdersByCustomer | services/dbService.ts:43-46 | returns `OrdersOfCustomer(stored, id)` |
| OrderService.CustomerContact | services/orderService.ts:18 | the first line's WhatsApp number, or "N/A" for an empty cart |
| OrderService.BuildOrder | services/orderService.ts:21-30 | the stored record; specified by `OrderService.BuildOrderIsPending` |
| OrderService.BuildOrderIsPending | services/orderService.ts:21-30 | the record is Pending, has no note, and carries the given id, cart, total and payment; the owner defaults to "GUEST" |
| OrderService.SubmitOrderToSheet | services/orderService.ts:9-41 | success iff the write does not fail; on success exactly one order is added, at the front, with the success message; on failure nothing is stored and the failure message is returned |
| AuthService.FreshId | services/authService.ts:16-20 | the id the retry loop settles on belongs to no user |
| AuthService.AppendKeepsDistinct | services/authService.ts:12-30 | appending a user with unused id, email and phone keeps ids, emails and phones pairwise distinct |
| AuthService.FindByCredentials | services/authService.ts:56 | `users.find` on email-or-phone and password; specified by `AuthService.FindByCredentialsIff` |
| AuthService.FindByCredentialsIff | services/authService.ts:56 | the lookup finds a user iff some user matches email-or-phone and password, and then the first such user |
| AuthService.AuthStore.constructor | services/authService.ts:8-9 | no users and no session yet |
| AuthService.AuthStore.RegisterUser | services/authService.ts:7-37 | a taken email is reported first and a taken phone next, neither changing users or session; otherwise exactly one customer is appended with an id no user had, and becomes the session; pairwise distinctness is preserved |
| AuthService.AuthStore.LoginUser | services/authService.ts:39-64 | the admin code gives the fixed admin user before any lookup; otherwise the first matching user becomes the session; a failed login leaves the session unchanged; users never change |
| AuthService.AuthStore.LogoutUser | services/authService.ts:66-68 | the session is cleared |
| AuthService.AuthStore.GetCurrentUser | services/authService.ts:70-73 | returns the session, which is absent after a logout |
| App.ApplyUpdate | App.tsx:120-128 | the key takes the value and the other fields are kept; the price is recomputed exactly for a platform, boost type or quantity key |
| App.UpdateKeepsPriceConsistent | App.tsx:120-128 | every update other than a direct write of the price keeps the price equal to the table price of the selections |
| App.FreshOrder | App.tsx:130-139 | the wizard resets to no selections, empty link and note, and price 0 |
| App.PlatformChoiceClears | App.tsx:253-257 | choosing a platform sets it, clears boost type and quantity, and makes the price 0 |
| App.OfferedQuantityIsPriced | App.tsx:349-355 | choosing an offered quantity prices the order at its positive table entry |
| App.CanAddIffReviewed | App.tsx:433 | adding is possible iff the review button is enabled (non-empty link, valid WhatsApp number) and all selections are made |
| App.OrNone | App.tsx:163 | an empty string becomes absent and any other string is kept |
| App.ItemOf | App.tsx:156-166 | the new line has count 1, the wizard's price and choices, and the wizard's note, or none when the note is empty |
| App.AddedItemIsPriced | App.tsx:156-166 | a line added from a consistent wizard carries its table price, which is positive for an offered quantity |
| App.IsPaymentValid | App.tsx:490-492 | the payment predicate; specified by `App.PaymentValidIff` |
| App.PaymentValidIff | App.tsx:490-492 | the payment is valid iff the sender phone is exactly 10 digits and either the reference is exactly 14 digits or a receipt is attached |
| App.PaymentNeedsProof | App.tsx:490-492 | the sender phone "0771234567" alone, with no reference and no receipt, is not enough |
| App.PaymentWithReference | App.tsx:490-492 | the sender phone "0771234567" with the reference "12345678901234" is enough |
| App.PaymentOf | App.tsx:223-228 | the payment is Ez Cash with the sender phone; an empty reference or receipt is left absent |
| App.ActiveOrderCount | App.tsx:91-92 | the badge is at most the customer's order count |
| App.CountActive | App.tsx:92 | a recursive count of the customer's Pending or Processing orders, the independent definition `App.ActiveOrderCountIsCount` compares the badge with |
| App.ActiveOrderCountIsCount | App.tsx:97-98 | the badge equals the number of stored orders of the customer that are Pending or Processing |
| App.App.constructor | App.tsx:24-33 | HOME at step 1 with an empty wizard and cart; the user is the stored session |
| App.App.HandleLoginSuccess | App.tsx:35-42 | the user is set; an admin goes to the admin panel, anyone else HOME |
| App.App.HandleLogout | App.tsx:44-48 | the stored session and the user are cleared; the view goes HOME |
| App.App.UpdateOrder | App.tsx:120-128 | the wizard becomes `ApplyUpdate(old, f)` and nothing else changes; step bounds and price consistency are preserved |
| App.App.StartWizard | App.tsx:130-142 | empty wizard, step 1, view WIZARD; a customer's phone is the contact number |
| App.App.HandleNext | App.tsx:144-146 | the step advances by one below 5, otherwise it stays; it stays within 1..5 |
| App.App.HandleBack | App.tsx:148-151 | the step goes back by one above 1, otherwise the view goes HOME; it stays within 1..5 |
| App.App.ChoosePlatform | App.tsx:253-258 | the platform is set, the later choices are cleared, the price is 0, and the step advances |
| App.App.HandleAddToCart | App.tsx:153-171 | with the guard failing nothing changes; otherwise exactly one line `ItemOf(order)` is appended, the drawer opens, and the wizard resets to step 1 on the home view |
| App.App.HandleCheckoutStart | App.tsx:173-184 | the drawer closes, the payment form empties, the error clears, and the view is CHECKOUT |
| App.App.EnterPayment | App.tsx:770-803 | the sender phone and reference keep only the digits typed |
| App.App.AttachReceipt | App.tsx:195-197 | the receipt is set |
| App.App.HandleFinalPurchase | App.tsx:209-242 | empty cart: nothing changes. No user: LOGIN and nothing stored. Success: exactly one Pending order with the cart's lines, whose total equals their sum, goes at the front; the cart empties and the view is SUCCESS. Failure: the cart and store are untouched and the error is set |
| App.App.PurchaseEnabled | App.tsx:898 | the purchase button's enabled state; used by `App.App.HandleFinalPurchaseAsWritten` to show the button stays disabled |
| App.App.HandleFinalPurchaseAsWritten | App.tsx:209-242 | as written, past the guards nothing is stored, the cart stays, and the purchase button stays disabled |
| App.App.RefreshActiveOrderCount | App.tsx:89-103 | for a customer, the badge becomes the count of their Pending or Processing orders; otherwise nothing changes |
| AdminDashboard.LowerChar | components/AdminDashboard.tsx:42 | upper-case ASCII letters map to lower case; everything else is unchanged |
| AdminDashboard.ToLower | components/AdminDashboard.tsx:42 | same length, each character lowered |
| AdminDashboard.MatchesSearch | components/AdminDashboard.tsx:43-48 | the search test on one order; used by `AdminDashboard.FilterOrdersMembers` |
| AdminDashboard.FilterOrders | components/AdminDashboard.tsx:32-54 | the status filter, then the search filter; specified by `AdminDashboard.FilterOrdersIsOneFilter` and `FilterOrdersMembers` |
| AdminDashboard.FilterOrdersIsOneFilter | components/AdminDashboard.tsx:32-54 | status-then-search is one filter by both tests, so the result is a subsequence of the orders |
| AdminDashboard.FilterOrdersMembers | components/AdminDashboard.tsx:36-50 | an order is listed iff it is stored, its status matches (any status for 'All'), and the search is empty or it matches the lowered term |
| AdminDashboard.NoFilterKeepsAll | components/AdminDashboard.tsx:36-50 | 'All' with an empty search lists every order |
| AdminDashboard.CompletedLeavesPendingFilter | components/AdminDashboard.tsx:56-59 | after marking a Pending order Completed, the Pending list excludes it and the Completed list includes it |
| AdminDashboard.TotalPages | components/AdminDashboard.tsx:118 | ceil(n/10): enough pages for n orders and no empty last page; 0 pages iff no orders |
| AdminDashboard.PageSlice | components/AdminDashboard.tsx:115-117 | `currentOrders`; specified by `AdminDashboard.PageSliceContents` and `EveryOrderOnItsPage` |
| AdminDashboard.PageSliceContents | components/AdminDashboard.tsx:115-117 | page p shows positions (p-1)·10 up to p·10 (cut at the end), never more than 10 |
| AdminDashboard.EveryOrderOnItsPage | components/AdminDashboard.tsx:114-118 | order i is on page i/10+1, within 1..totalPages, at position i mod 10 |
| AdminDashboard.PrevPage | components/AdminDashboard.tsx:360 | one page back, never below 1 |
| AdminDashboard.NextPage | components/AdminDashboard.tsx:372 | one page on, never past the last page |
| AdminDashboard.PagingStaysInRange | components/AdminDashboard.tsx:357-373 | from a page in 1..totalPages both buttons stay within 1..totalPages |
| AdminDashboard.OrNA | components/AdminDashboard.tsx:95-97 | an empty value becomes "N/A" |
| AdminDashboard.DecimalDigits | components/AdminDashboard.tsx:92-93 | a non-empty string of decimal digits |
| AdminDashboard.Fixed2 | components/AdminDashboard.tsx:92-93 | the amount ends in ".00" and starts with '-' iff it is negative |
| AdminDashboard.DecimalDigitsReadBack | components/AdminDashboard.tsx:92-93 | the digits read back to the number and have no leading zero |
| AdminDashboard.Fixed2ReadsBack | components/AdminDashboard.tsx:92-93 | between the sign and ".00" stand the digits of the amount's magnitude |
| AdminDashboard.Row | components/AdminDashboard.tsx:82-98 | one cell per header column (15) |
| AdminDashboard.RowOrderCells | components/AdminDashboard.tsx:82-90 | cells 1-8 are the order's id, date, customer and contact, then the line's platform, service, quantity and link |
| AdminDashboard.RowAmountCells | components/AdminDashboard.tsx:91-98 | cells 9-15: a missing note is ""; the two amounts carry two decimals; then the status; empty or missing payment fields are "N/A" |
| AdminDashboard.ItemRows | components/AdminDashboard.tsx:81-99 | one row per line of the order, in order |
| AdminDashboard.CsvRows | components/AdminDashboard.tsx:79-100 | the export rows, order after order and line after line; specified by `AdminDashboard.CsvRowsCount` and `CsvRowAt` |
| AdminDashboard.CsvRowsCount | components/AdminDashboard.tsx:79-100 | one row per line of each order |
| AdminDashboard.CsvRowAt | components/AdminDashboard.tsx:79-100 | line j of order k is the row after the lines of the earlier orders: rows follow orders, and lines within each |
| AdminDashboard.ExportRows | components/AdminDashboard.tsx:79-100 | the nested loops build exactly `CsvRows(filtered)` |
| AdminDashboard.JoinStartsWithFirst | components/AdminDashboard.tsx:102 | a joined list of lines starts with its first line |
| AdminDashboard.CsvContent | components/AdminDashboard.tsx:102-103 | the export text under the fixed header line; specified by `AdminDashboard.CsvText` |
| AdminDashboard.CsvText | components/AdminDashboard.tsx:102-103 | the exported text starts with the data-URL prefix followed by the header line |
| AdminDashboard.AdminDashboard.constructor | components/AdminDashboard.tsx:9-30 | loads the stored orders, shows all of them, page 1 |
| AdminDashboard.AdminDashboard.Reload | components/AdminDashboard.tsx:26-54 | the orders are reloaded from the store and refiltered with the current search and status; the page is 1; every other field keeps its value |
| AdminDashboard.AdminDashboard.SetSearchTerm | components/AdminDashboard.tsx:144 | the list is refiltered with the new term; the page resets to 1; every other field keeps its value |
| AdminDashboard.AdminDashboard.SetStatusFilter | components/AdminDashboard.tsx:153 | the list is refiltered with the new status; the page resets to 1; every other field keeps its value |
| AdminDashboard.AdminDashboard.Refresh | components/AdminDashboard.tsx:128 | the refresh key increments and the orders are reloaded and refiltered with the unchanged search and status, at page 1; the note editor is untouched |
| AdminDashboard.AdminDashboard.HandleStatusChange | components/AdminDashboard.tsx:56-59 | the store gets the new status; the refresh key increments and the list reloads at page 1 under the same search and status; the note editor is untouched |
| AdminDashboard.AdminDashboard.OpenNote | components/AdminDashboard.tsx:280-282 | only the open-note id changes |
| AdminDashboard.AdminDashboard.EditSentNote | components/AdminDashboard.tsx:269-272 | the editor opens on the order, holding its note ("" when it has none); nothing else changes |
| AdminDashboard.AdminDashboard.EditNote | components/AdminDashboard.tsx:292 | only the typed note changes |
| AdminDashboard.AdminDashboard.CancelNote | components/AdminDashboard.tsx:304 | the editor closes; the typed note and everything else keep their values |
| AdminDashboard.AdminDashboard.HandleSendNote | components/AdminDashboard.tsx:61-66 | the store gets the typed note; the editor closes and clears; the refresh key increments and the list reloads at page 1 under the same search and status |
| AdminDashboard.AdminDashboard.HandleDelete | components/AdminDashboard.tsx:68-73 | unconfirmed: neither the store nor any field changes. Confirmed: the id leaves the store and the list, the refresh key increments, and the list reloads at page 1; the search, status and note editor keep their values |
| AdminDashboard.AdminDashboard.PreviousPage | components/AdminDashboard.tsx:360 | the page becomes `PrevPage(page)`; nothing else changes |
| AdminDashboard.AdminDashboard.NextPageClick | components/AdminDashboard.tsx:372 | the page becomes `NextPage(page, totalPages)`; nothing else changes |
| AdminDashboard.AdminDashboard.ExportCsv | components/AdminDashboard.tsx:75-112 | the rows are those of the filtered list, one per line, and the text is built from them |
| AuthForms.EmailFormat | components/AuthForms.tsx:50-51 | the email regular expression; specified by `AuthForms.EmailFormatShape` and `EmailExamples` |
| AuthForms.EmailFormatShape | components/AuthForms.tsx:50-51 | an accepted email has no white space, exactly one '@' (not first), and a later dot that is neither right after the '@' nor last |
| AuthForms.EmailExamples | components/AuthForms.tsx:50-51 | "a@b.co" passes; a missing dot, a missing '@', an empty local part, or a space fails |
| Seqs.Utf16Length | components/AuthForms.tsx:63 | `.length` counts UTF-16 code units: at least the number of characters, at most twice it, and equal to it when no character lies beyond U+FFFF |
| AuthForms.SubmitCheck | components/AuthForms.tsx:29-68 | each message is given iff its check is the first to fail; the service is called iff every check passes, with the form's values; the password length counts UTF-16 code units |
| AuthForms.PasswordLengthInCodeUnits | components/AuthForms.tsx:63 | three emoji count as six code units; three letters count as three |
| AuthForms.StrippedPhoneFailsOnlyOnLength | components/AuthForms.tsx:129 | with a digit-only phone, once the email passes, the phone error comes iff the length is not 11 |
| AuthForms.AuthForm.constructor | components/AuthForms.tsx:12-18 | login mode, empty fields, no error |
| AuthForms.AuthForm.HandleChange | components/AuthForms.tsx:20-23 | the field takes the value and the error clears |
| AuthForms.AuthForm.EditPhone | components/AuthForms.tsx:129 | the phone keeps only digits; the other fields and the error are unchanged |
| AuthForms.AuthForm.ToggleMode | components/AuthForms.tsx:165-169 | the mode flips, the error clears, and all three fields become empty |
| AuthForms.AuthForm.HandleSubmit | components/AuthForms.tsx:25-75 | a rejected form calls no service and shows its message; otherwise the login or registration outcome decides the user handed on and the error shown; a taken email or phone leaves users and session as they were |

## Findings

| source | as written | input that shows it | evidently intended | confidence | as-written member | corrected member |
|---|---|---|---|---|---|---|
| App.tsx:230 | `submitOrderToSheet` is called but never imported (the imports are lines 1-19); past the guards the call throws, so no order is stored and `isProcessing` stays true | a logged-in user with a non-empty cart clicks "Confirm & Purchase" | import the function from services/orderService.ts; submit, then clear the cart on success | high (not executed) | App.App.HandleFinalPurchaseAsWritten | App.App.HandleFinalPurchase |

## Left out

- Storage: `localStorage`, the JSON round trip, and the try/catch around loading the stored cart are I/O. Each stored collection is an object field, and a JSON copy is a value copy.
- The cart's mirror into storage (hooks/useCart.ts:9-23) is left out. The cart lives in its object.
- Timers: the 5-second polling timer (App.tsx:96-101) is left out. `RefreshActiveOrderCount` is one tick of it.
- Asynchrony: the `async`/`await` around order submission is dropped. The call is synchronous.
- Environment values are parameters: `Math.random`, `crypto.randomUUID` and `new Date().toLocaleString()`.
- Browser I/O is left out:
  - the FileReader receipt loading and its 2 MB size check;
  - clipboard copy;
  - `window.scrollTo`;
  - `encodeURI`;
  - the download link of the CSV;
  - `console.error`.
  
  `AttachReceipt` receives the data URL the reader would produce.
- The `maxLength` limits of the inputs are enforced by the browser and are not modelled. They are 11 on the registration phone, 10 on the sender phone and 14 on the reference number.
- Strings are sequences of Unicode scalar values, while JavaScript strings are sequences of UTF-16 code units. The one place the source compares a string length with a number other than 0 is the password check, and there `Seqs.Utf16Length` counts code units. Elsewhere only emptiness is tested, and the two counts agree on emptiness; the digit patterns match single-unit characters only.
- AdminDashboard.ToLower: lowers ASCII letters only. JavaScript's `toLowerCase` also lowers other Unicode letters.
- AdminDashboard.Fixed2: models `toFixed(2)` for whole numbers only. All amounts in the model are integers.
- Constants.CalculatePrice: a label that names an inherited object property (such as "constructor") is treated like any other absent label, giving 0. In JavaScript the lookup would find the property.
- Constants: the platform cards' names are kept. Their icons, colours and gradients are presentation and are omitted.
- AuthService.AuthStore.RegisterUser: the retry loop is bounded by the supplied attempts. It requires that one attempt yields an unused id. The source loops until the random generator produces one.
- Order ids are not checked for collisions. This matches the source, which does not recheck them.
- AdminDashboard.AdminDashboard.PreviousPage and NextPageClick require more than one page. The pagination controls exist only then (components/AdminDashboard.tsx:357).
- The receipt preview modal of the admin list is presentation only and is left out.
- The wizard's boost-type step (App.tsx:285-289) and quantity step (App.tsx:352-355) are modelled as `UpdateOrder` calls followed by `HandleNext`. Their price effect is `App.OfferedQuantityIsPriced`. The later cart changes cannot reach a stored order: the cart's methods modify only the cart, and the store keeps values.
- Navigation-only views (NOTIFICATIONS, the customer order list) and presentational components are not part of this model. Neither is the AI tip service, an external network call.
