# vitalix-ui in Dafny

A model of the client-side logic of vitalix-ui, a React storefront for a
pharmacy. Customers browse a catalog, fill a cart and place orders. Drivers
deliver the orders, assistants prepare them, and a back office manages
orders, branches, users, drivers and assistants. The model covers the
rules these pages apply to their data. It leaves out the rendering.

Each source file of the core is one Dafny module:

- `GlobalContext`: the shared provider. It holds the session, the registered
  accounts, the cart and the catalog filters, as a class whose methods are
  the provider's handlers.
- `Cart`: the cart updaters it applies. Adding respects the stock.
  `updateQuantity` does not check the stock.
- `Store`: the catalog filter and sort. The provider's initial category,
  "All Products", matches no product, so nothing is shown until a category
  is picked.
- `StoreCard`: the stock badge and the sold-out overlay of a product card.
- `AddToCartModal`: the product modal.
- `CartPage`: the cart page: totals and checkout. Its quantity buttons call the provider, whose effect is `GlobalContext.Provider.UpdateQuantity`.
- `ProtectedRoute`: the route guard.
- `Email`: the address pattern of the password-reset and sign-in forms.
- `Profile`: the profile form.
- `UserOrders`: the customer's order history.
- `Driver`: the driver panel. It finds the driver by name, lists their
  orders and counts the products of an order.
- `Assistant`: the assistant panel. It handles order assignment, and a
  driver id of 1 counts as "unassigned".
- `AdminPedidos`: the back-office order editor, including its
  comma-separated product id field.
- `AdminSucursales`: the back-office branch editor.
- `AdminUsuarios`: the back-office user editor.
- `AdminDomiciliarios`: the back-office driver editor.
- `AdminAuxiliares`: the back-office assistant editor. Every branch option
  in its select carries the value 1.

Three shared modules support them:

- `Common`: JavaScript string and number behaviour: `length` in UTF-16 code
  units, trimming, case mapping, substring search, `Number` and `String` on
  integers, and split and join.
- `Seqs`: filtering, stable sorting by an integer key, sums and reversal.
- `Types`: the back office's records and order states.

Pages keep their state in classes. `useState` variables become fields, and
handlers become methods with `modifies` clauses. Code that only computes
becomes functions, and lemmas state what the pages promise about it.
Prices and amounts are integers.

Some inputs from outside the page become parameters:

- a `window.confirm` answer;
- the outcome of a network request;
- the clock reading used as a new uid;
- today's date.

## Model

| member | source | states |
|---|---|---|
| StoreCard.StockBadge | src/components/ui/storeCard.tsx:20-46 | exactly one badge: "Agotado" iff `stock || 0` is at most 0, the few-left badge iff the stock is 1 to 9, the in-stock badge iff it is 10 or more; a counting badge shows the stock; a missing stock shows "Agotado" |
| StoreCard.SoldOutOverlay | src/components/ui/storeCard.tsx:59-75 | the grey overlay and the central sold-out label appear iff the card has no stock, which is iff the badge is the sold-out one |
| StoreCard.BadgeAgreesWithOverlay | src/components/ui/storeCard.tsx:29-75 | the badge text is "Agotado" iff the sold-out overlay is shown |
| Cart.FindItem | src/context/GlobalContext.tsx:184 | the position of the first line holding the product id, or none iff no line holds it |
| Cart.FindItemFirst | src/context/GlobalContext.tsx:184 | a line holding the id with no earlier such line is the one found |
| Cart.FindItemUnique | src/context/GlobalContext.tsx:184 | in a cart with unique ids, any line holding the id is the one found |
| Cart.CountAtLeastLines | src/context/GlobalContext.tsx:218 | a cart whose lines hold at least one unit each counts at least one unit per line |
| Cart.AddRefused | src/context/GlobalContext.tsx:176-189 | no stock, or a line already holding all of it, leaves the cart unchanged |
| Cart.AddIncrementsInPlace | src/context/GlobalContext.tsx:184-191 | adding a product already in the cart with stock to spare adds one unit to exactly that line, in place |
| Cart.AddAppendsNew | src/context/GlobalContext.tsx:193-194 | adding an in-stock product not yet in the cart appends one line with one unit |
| Cart.ReplacePreservesValid | src/context/GlobalContext.tsx:191 | replacing a line by one with the same id and a positive quantity keeps ids unique and quantities positive |
| Cart.AppendPreservesValid | src/context/GlobalContext.tsx:194 | appending a line with a new id and a positive quantity keeps the cart valid |
| Cart.DropPreservesValid | src/context/GlobalContext.tsx:199 | dropping a line keeps the cart valid |
| Cart.ReplaceKeepsOthers | src/context/GlobalContext.tsx:191 | replacing a line by one with the same id keeps every other product's units |
| Cart.AppendKeepsOthers | src/context/GlobalContext.tsx:194 | appending a line for a new id keeps every other product's units |
| Cart.DropKeepsOthers | src/context/GlobalContext.tsx:199 | dropping a line keeps every other product's units |
| Cart.DropRemovesId | src/context/GlobalContext.tsx:199 | in a valid cart, dropping the line of an id leaves no units of it |
| Cart.AddPreservesValid | src/context/GlobalContext.tsx:175-196 | `addToCart` keeps ids unique and quantities positive |
| Cart.AddEffect | src/context/GlobalContext.tsx:175-196 | the product's units grow by one exactly when one more unit fits the stock, other products keep their units, the count moves by that unit and the total by its price (with lines 217-218) |
| Cart.AddNoticeMatchesCart | src/context/GlobalContext.tsx:178-193 | the error or warning toast is raised exactly when the cart does not change |
| Cart.RemoveAbsent | src/context/GlobalContext.tsx:198-201 | removing an id the cart does not hold leaves the cart unchanged |
| Cart.RemoveDropsLine | src/context/GlobalContext.tsx:199 | removing drops exactly the line with the id and keeps the other lines in order |
| Cart.RemoveEffect | src/context/GlobalContext.tsx:198-218 | after removing, the cart is valid, holds no unit of the id, other products keep their units, the count loses the line's units and the total its amount |
| Cart.StepQuantityAt | src/context/GlobalContext.tsx:205-210 | the `map` step changes only the line holding the id, to `max(0, q + delta)` units |
| Cart.UpdateAbsent | src/context/GlobalContext.tsx:203-213 | updating an id the cart does not hold leaves a cart of positive quantities unchanged |
| Cart.UpdateSetsLine | src/context/GlobalContext.tsx:203-213 | the line gets `max(0, q + delta)` units in place, and is dropped when that is 0 |
| Cart.UpdateEffect | src/context/GlobalContext.tsx:203-218 | `updateQuantity` keeps the cart valid, sets the id's units to `max(0, q + delta)` (0 when absent), keeps other products' units and moves the count by that line's change |
| Cart.UpdateEffectAt | src/context/GlobalContext.tsx:203-218 | the same effect stated for the line at a given position |
| Cart.UpdateIgnoresStock | src/context/GlobalContext.tsx:203-213 | a non-negative delta raises the units by the full delta, with no stock check |
| Cart.UpdateCanExceedStock | src/context/GlobalContext.tsx:203-213 | a concrete cart where one unit of a product with stock 1 becomes two |
| GlobalContext.FindAccount | src/context/GlobalContext.tsx:99 | the first account whose email and password both match, or none iff no account matches |
| GlobalContext.LoginSession | src/context/GlobalContext.tsx:74-120 | a session opens iff the administrator pair is given or a stored account matches; the admin role iff the administrator pair; the session carries the email given, never the non-user role |
| GlobalContext.RegisterKeepsEmailsUnique | src/context/GlobalContext.tsx:128-142 | appending an account whose email is not registered keeps emails unique |
| GlobalContext.RegisterThenLogin | src/context/GlobalContext.tsx:122-157 | after registering, logging in with the same email and password opens a user session with the registered uid and name (with lines 99-114) |
| GlobalContext.Provider.constructor | src/context/GlobalContext.tsx:57-58 | no session, auth loading, the saved cart restored, the initial filters ("All Products", 0 to 10000000, "Recommended") (with lines 166-169, 221-227) |
| GlobalContext.Provider.RestoreSession | src/context/GlobalContext.tsx:61-72 | a stored session that parses becomes the user; loading ends either way |
| GlobalContext.Provider.Login | src/context/GlobalContext.tsx:74-120 | succeeds iff `LoginSession` opens one, and then that is the user; a failure keeps the session; loading ends |
| GlobalContext.Provider.Register | src/context/GlobalContext.tsx:122-157 | refused iff the email is registered, changing nothing; otherwise exactly one account is appended with the clock as uid and its user session opens; emails stay unique |
| GlobalContext.Provider.Logout | src/context/GlobalContext.tsx:159-163 | no session afterwards |
| GlobalContext.Provider.AddToCart | src/context/GlobalContext.tsx:175-196 | the cart becomes `CartAfterAdd` of the old cart, the toast is `AddNoticeFor`, and a valid cart stays valid |
| GlobalContext.Provider.RemoveFromCart | src/context/GlobalContext.tsx:198-201 | the cart becomes `CartAfterRemove` of the old cart and stays valid |
| GlobalContext.Provider.UpdateQuantity | src/context/GlobalContext.tsx:203-213 | the cart becomes `CartAfterUpdate` of the old cart and stays valid |
| GlobalContext.Provider.ClearCart | src/context/GlobalContext.tsx:215 | the cart is empty |
| GlobalContext.Provider.SetSearchQuery | src/context/GlobalContext.tsx:229 | only the search text of the filters changes |
| GlobalContext.Provider.SetCategory | src/context/GlobalContext.tsx:230 | only the category changes |
| GlobalContext.Provider.SetPriceRange | src/context/GlobalContext.tsx:231 | only the two price bounds change |
| GlobalContext.Provider.SetSortOption | src/context/GlobalContext.tsx:232 | only the sort option changes |
| Common.TrimStartShape | src/components/Profile.tsx:48 | what `TrimStart` keeps is a suffix of the text that does not start with whitespace, and what it drops is all whitespace |
| Common.TrimEndShape | src/components/Profile.tsx:48 | what `TrimEnd` keeps is a prefix that does not end with whitespace, and what it drops is all whitespace |
| Common.TrimEmptyIffAllSpace | src/components/CartPage.tsx:119 | `s.trim()` is empty iff every character of `s` is whitespace |
| Common.TrimNoOuterSpace | src/components/admin/AdminPedidos.tsx:192 | text that neither starts nor ends with whitespace trims to itself |
| Common.TrimLeadingSpace | src/pages/Driver.tsx:208 | a leading space makes no difference to `trim` |
| Common.LowerChar | src/pages/Store.tsx:40 | the result is never a capital of Basic Latin or Latin-1; a capital becomes its small letter, and every other character is kept |
| Common.UpperChar | src/components/admin/AdminPedidos.tsx:151 | a small letter becomes the capital whose lower case it is, µ becomes U+039C and ÿ becomes U+0178; no small letter of Basic Latin or Latin-1 other than ß is left, and every other character is kept |
| Common.ToLower | src/pages/Store.tsx:40 | same length, each character lower-cased in place |
| Common.ToUpper | src/components/admin/AdminPedidos.tsx:151 | the result is one character longer for each ß in the input, and it holds no small letter of Basic Latin or Latin-1 |
| Common.UpperText | src/components/admin/AdminPedidos.tsx:151 | ß becomes "SS" and any other character its single capital |
| Common.ToUpperInPlace | src/components/admin/AdminPedidos.tsx:151 | text without ß keeps its length and is upper-cased character by character |
| Common.ToUpperFixed | src/components/admin/AdminPedidos.tsx:151 | text without a small letter is left unchanged |
| Common.ToUpperIdempotent | src/components/admin/AdminPedidos.tsx:151 | upper-casing a text twice is upper-casing it once |
| Common.SharpSBecomesTwo | src/components/admin/AdminPedidos.tsx:151 | "aß" upper-cases to "ASS", which is longer than its input |
| Common.JsLength | src/components/CartPage.tsx:119 | `length` counts UTF-16 code units: between the number of characters and twice that, and equal to it iff no character lies outside the Basic Multilingual Plane |
| Common.JsLengthAppend | src/components/admin/AdminSucursales.tsx:17 | the length of a concatenation is the sum of the two lengths |
| Common.LowerCharIdempotent | src/pages/Store.tsx:40 | lower-casing a character twice is lower-casing it once |
| Common.ToLowerIdempotent | src/pages/Store.tsx:40 | lower-casing a text twice is lower-casing it once |
| Common.ContainsIffOccurs | src/pages/Store.tsx:40-44 | `includes` holds iff the text occurs at some position |
| Common.ContainsEmpty | src/pages/Store.tsx:40 | every text includes the empty text |
| Common.DigitChar | src/pages/Store.tsx:44 | the digit character of a value below 10 |
| Common.NatToString | src/pages/Store.tsx:44 | a natural number prints as a non-empty run of digits |
| Common.IntToString | src/pages/Store.tsx:44 | a number prints as non-empty text: digits when not negative, a leading '-' when negative |
| Common.DigitsValueOfNatToString | src/components/admin/AdminPedidos.tsx:192 | the printed digits of a number have that number as value |
| Common.ParseNumber | src/components/admin/AdminPedidos.tsx:192 | `Number` is a number iff the text is all digits, and 0 for the empty text |
| Common.ParseNumberOfNatToString | src/components/admin/AdminPedidos.tsx:192 | reading back a printed number gives the number (with line 366) |
| Common.Split | src/components/admin/AdminPedidos.tsx:192 | `split` always yields at least one piece |
| Common.JoinSplit | src/components/admin/AdminPedidos.tsx:192 | joining the pieces of a split with the separator gives the text back (with line 366) |
| Common.SplitLeadingSep | src/components/admin/AdminPedidos.tsx:192 | a leading separator starts an empty piece |
| Common.SplitNoSep | src/components/admin/AdminPedidos.tsx:192 | text without the separator splits into itself |
| Common.SplitLeadingChar | src/components/admin/AdminPedidos.tsx:192 | a first character other than the separator joins the first piece |
| Common.SplitAtFirstSep | src/components/admin/AdminPedidos.tsx:192 | `a + sep + b`, with no separator in `a`, splits into `a` and then the pieces of `b` |
| Common.JoinPrepend | src/components/admin/AdminPedidos.tsx:366 | `join` of a first piece and a non-empty rest puts the separator between them |
| Seqs.Filter | src/pages/Store.tsx:38-48 | `filter` keeps only elements that pass and is never longer than the input |
| Seqs.FilterCons | src/pages/Store.tsx:38-48 | one step of `filter`: the head is kept iff it passes |
| Seqs.FilterAppend | src/context/GlobalContext.tsx:199 | filtering a concatenation filters the two parts |
| Seqs.FilterMember | src/pages/Store.tsx:38-48 | an element is in the result iff it is in the input and passes |
| Seqs.FilterCount | src/pages/Store.tsx:38-48 | `filter` keeps every copy of a passing element and no copy of another |
| Seqs.FilterNone | src/pages/Store.tsx:38-48 | a test nothing passes gives the empty list |
| Seqs.FilterAll | src/pages/Store.tsx:38-48 | a test everything passes keeps the list as it is |
| Seqs.FilterSingle | src/context/GlobalContext.tsx:199 | a one-element list is kept or emptied |
| Seqs.FilterAroundOne | src/context/GlobalContext.tsx:199-211 | filtering `a + [x] + b` filters the three parts |
| Seqs.FilterAround | src/context/GlobalContext.tsx:199-211 | when only `x` may fail, filtering keeps everything or drops exactly `x` |
| Seqs.FilterAroundKept | src/context/GlobalContext.tsx:211 | the case where `x` passes: nothing is dropped |
| Seqs.FilterAroundDropped | src/context/GlobalContext.tsx:199 | the case where `x` fails: exactly `x` is dropped |
| Seqs.FilterPartition | src/pages/Driver.tsx:279-285 | a test and its negation split the list: the two filtered lengths add up to its length |
| Seqs.FilterTwice | src/pages/Driver.tsx:215-218 | two filters in a row keep what passes both |
| Seqs.FindFirst | src/context/GlobalContext.tsx:184 | `find`: the first position that passes, or none iff nothing passes |
| Seqs.Insert | src/pages/Store.tsx:49-53 | inserting into a sorted list keeps it sorted, adds exactly that element and one to the length |
| Seqs.InsertBehindHead | src/pages/Store.tsx:49-53 | the step of `Insert`: the head stays in front, sorted and with the same elements |
| Seqs.SortBy | src/pages/Store.tsx:49-53 | the result is sorted by the key and is a permutation of the input |
| Seqs.SortByConstantKey | src/pages/Store.tsx:52 | a comparator that always answers 0 leaves the order unchanged (the sort is stable) |
| Seqs.InsertAfterEqualKeys | src/pages/Store.tsx:52 | with all keys equal, insertion appends at the end |
| Seqs.SortByMembership | src/pages/Store.tsx:49-53 | an element is in the sorted list iff it is in the input |
| Seqs.SortedTail | src/pages/Store.tsx:49-53 | the tail of a sorted list is sorted and no key in it is below the head's |
| Seqs.SortedCons | src/pages/Store.tsx:49-53 | an element whose key is not above any key of a sorted list may go in front |
| Seqs.FilterKeepsSorted | src/components/admin/AdminDomiciliarios.tsx:116-119 | filtering a sorted list keeps it sorted (with line 25) |
| Seqs.SumAppend | src/context/GlobalContext.tsx:217-218 | `reduce` into a sum over a concatenation is the sum of the two sums |
| Seqs.SumSingle | src/context/GlobalContext.tsx:217-218 | the sum of one element is that element's amount |
| Seqs.SumAround | src/context/GlobalContext.tsx:217-218 | the sum over `a + [x] + b` is the part before, `x`, and the part after |
| Seqs.SplitAround | src/context/GlobalContext.tsx:191 | a list is its part before `k`, its element at `k` and its part after |
| Seqs.SumReplace | src/context/GlobalContext.tsx:191-218 | replacing one element moves the sum by the difference |
| Seqs.SumRemove | src/context/GlobalContext.tsx:199-218 | dropping one element takes it out of the sum |
| Seqs.SumInsert | src/pages/Driver.tsx:74-79 | inserting one element adds it to the sum |
| Seqs.Reverse | src/components/UserOrders.tsx:34 | `reverse`: same length, element `i` is element `n - 1 - i` of the input |
| Seqs.ReverseMember | src/components/UserOrders.tsx:34 | reversing keeps the same elements |
| Store.CatalogProducts | src/pages/Store.tsx:22-34 | no inventory gives no products; otherwise one product per record, in order, with its code, description, price and stock, all in "General" |
| Store.FilteredIsSubset | src/pages/Store.tsx:37-54 | the list shows exactly the catalog products that pass every filter, so it is never longer than the catalog |
| Store.UnknownCategoryShowsNothing | src/pages/Store.tsx:39 | a category no product carries empties the list |
| Store.InitialFiltersShowNothing | src/pages/Store.tsx:39 | the provider's initial "All Products" category matches no catalog product, so the first render lists nothing (the initial filters are set in src/context/GlobalContext.tsx at lines 221-227) |
| Store.AscendingOption | src/pages/Store.tsx:49-50 | "Precio: Menor a Mayor" lists prices in non-decreasing order |
| Store.DescendingOption | src/pages/Store.tsx:49-51 | "Precio: Mayor a Menor" lists prices in non-increasing order |
| Store.OtherOptionKeepsOrder | src/pages/Store.tsx:49-53 | any other option keeps the catalog order of what passes |
| Store.NoFiltersShowEverything | src/pages/Store.tsx:37-54 | with every filter off and no price ordering, the whole catalog is shown in order |
| Store.SearchFindsItself | src/pages/Store.tsx:40-47 | searching for a product's full id and its name keeps it |
| Driver.InsertPosition | src/pages/Driver.tsx:79 | the place of an id among ascending ids: every id before it is smaller, the one at it is not |
| Driver.TallyAgain | src/pages/Driver.tsx:78 | counting an id that already has a line adds one to that line and keeps the tally exact |
| Driver.InsertKeepsAscending | src/pages/Driver.tsx:79 | a new id put between the smaller and the larger ids keeps the ids strictly ascending |
| Driver.InsertAddsId | src/pages/Driver.tsx:78-79 | after inserting a line, the ids with a line are the old ones and the new one |
| Driver.InsertKeepsCounts | src/pages/Driver.tsx:78 | a new line with count 1 for an unseen id keeps every count equal to the id's occurrences |
| Driver.InsertKeepsIds | src/pages/Driver.tsx:78-79 | after inserting a line for `id`, the ids with a line are those of `ids + [id]` |
| Driver.TallyNew | src/pages/Driver.tsx:78-79 | counting an unseen id inserts a line with count 1 in its ascending place and keeps the tally exact |
| Driver.GroupProductIds | src/pages/Driver.tsx:75-80 | one line per distinct id, ids ascending, each counting the id's occurrences (at least 1), and the counts add up to the number of ids |
| Driver.NameKeyIgnoresCaseAndLeadingSpace | src/pages/Driver.tsx:208 | the name comparison ignores letter case and spaces in front |
| Driver.Panel.constructor | src/pages/Driver.tsx:197 | no current driver at first |
| Driver.Panel.IdentifyDriver | src/pages/Driver.tsx:205-212 | with a user and drivers, the first driver whose lower-cased, trimmed full name equals the user's becomes current; otherwise the current driver is kept |
| Driver.NoDriverNoOrders | src/pages/Driver.tsx:216 | without an identified driver (missing or 0) nothing is listed |
| Driver.MyOrdersMember | src/pages/Driver.tsx:215-219 | an order is listed iff it is a loaded order of the driver that is neither BORRADO nor CANCELADO |
| Driver.TwoGroupOrder | src/pages/Driver.tsx:220-224 | the undelivered group followed by the delivered group, each sorted, satisfies the comparator: delivered last, ids descending within a group |
| Driver.SortedGroupMember | src/pages/Driver.tsx:220-224 | every order of a sorted group passes the group's test and was in the list |
| Driver.MyOrdersOrder | src/pages/Driver.tsx:220-224 | delivered orders come after every undelivered one, and ids descend within each group |
| Driver.MyOrdersListing | src/pages/Driver.tsx:215-225 | both of the above: exactly the driver's live orders, in the comparator's order |
| Driver.CountersCoverList | src/pages/Driver.tsx:279-285 | the "Pendientes" and "Entregados" counters add up to the number of listed orders |
| Driver.DeliveringMovesCounters | src/pages/Driver.tsx:228-235 | delivering a listed undelivered order moves one unit from "Pendientes" to "Entregados" (with lines 279, 285) |
| Driver.MarkDeliveredRequest | src/pages/Driver.tsx:228-231 | ENTREGADO is requested for that order iff the user confirms |
| Driver.DeliveredOrderLosesButton | src/pages/Driver.tsx:150-160 | once the requested change is applied the order no longer shows "Confirmar Entrega" (with lines 228-231) |
| Email.PatternIffShape | src/pages/ForgotPass.tsx:12-13 | the pattern accepts exactly the addresses with no whitespace, a single '@' that is not first, and after it a '.' that is neither right after the '@' nor last |
| Email.AcceptedExample | src/components/SignIn.tsx:38-39 | "a@b.co" is accepted |
| Email.AcceptedDottedExample | src/components/SignIn.tsx:38-39 | a dot in the local part and in the domain is accepted |
| Email.NoDotRefused | src/pages/ForgotPass.tsx:12-13 | a domain without a dot is refused |
| Email.MisplacedDotRefused | src/pages/ForgotPass.tsx:12-13 | a dot right after the '@', or at the end, is refused |
| Email.SpaceOrSecondAtRefused | src/pages/ForgotPass.tsx:12-13 | a space or a second '@' is refused |
| Email.ForgotPassword.constructor | src/pages/ForgotPass.tsx:6-8 | empty address, no message, not submitted |
| Email.ForgotPassword.SetEmail | src/pages/ForgotPass.tsx:62 | the input sets the address |
| Email.ForgotPassword.HandleSubmit | src/pages/ForgotPass.tsx:10-19 | a refused address sets "Por favor, ingrese un correo válido." and leaves the form; an accepted one shows the confirmation and clears the message |
| Email.ForgotPassword.TryAnotherEmail | src/pages/ForgotPass.tsx:110 | back to the form |
| Email.SignIn.constructor | src/components/SignIn.tsx:32 | no message at first |
| Email.SignIn.ValidateAndSubmit | src/components/SignIn.tsx:34-44 | the login is called iff the pattern accepts the address; otherwise "Please enter a valid email address." is shown |
| Common.OrEmpty | src/components/Profile.tsx:37-40 | a missing field reads as "" and a present one as itself |
| Profile.Merged | src/components/Profile.tsx:54-57 | the four form fields replace the user's, every other field is kept |
| Profile.SavedFormComesBack | src/components/Profile.tsx:34-57 | the form filled from the saved user is the form that was saved |
| Profile.SavingUntouchedForm | src/components/Profile.tsx:34-57 | saving an untouched form gives back the same user when no field was missing, and the same form always |
| Profile.WithField | src/components/Profile.tsx:154 | an input changes its own field and no other (with lines 172, 191, 220) |
| Profile.ProfilePage.constructor | src/components/Profile.tsx:23-31 | no user, not editing, empty form |
| Profile.ProfilePage.UserChanged | src/components/Profile.tsx:34-43 | a user fills the form from its fields, no user leaves the form |
| Profile.ProfilePage.StartEditing | src/components/Profile.tsx:120 | the edit button turns edit mode on |
| Profile.ProfilePage.SetField | src/components/Profile.tsx:154 | the form becomes the old form with that field changed (with lines 172, 191, 220) |
| Profile.ProfilePage.HandleSave | src/components/Profile.tsx:47-59 | a name blank after trimming saves nothing and keeps edit mode; otherwise the merged user is handed to `updateUserProfile`, and edit mode ends iff that call returns rather than throws |
| Profile.ProfilePage.HandleCancel | src/components/Profile.tsx:61-70 | the form is refilled from the user and edit mode ends |
| UserOrders.MyOrdersListing | src/components/UserOrders.tsx:34 | exactly the orders whose email equals the user's, in reverse fetch order; none before the orders arrive |
| UserOrders.NoUserListsOrdersWithoutEmail | src/components/UserOrders.tsx:34 | with no user, an order whose email key is absent is listed (a state only cached orders can reach, since the query waits for a user) |
| UserOrders.Toggled | src/components/UserOrders.tsx:36-42 | the open order closes, any other opens |
| UserOrders.ToggleTwice | src/components/UserOrders.tsx:36-42 | toggling twice restores the accordion only when that order was open |
| UserOrders.Accordion.constructor | src/components/UserOrders.tsx:25 | nothing is open at first |
| UserOrders.Accordion.ToggleDetails | src/components/UserOrders.tsx:36-42 | the open order becomes the toggled one |
| UserOrders.Accordion.AtMostOneExpanded | src/components/UserOrders.tsx:155-162 | among orders with distinct ids at most one shows its details |
| UserOrders.StatusColor | src/components/UserOrders.tsx:44-50 | green iff "Aceptado", red iff "Rechazado", yellow otherwise |
| UserOrders.StatusIcon | src/components/UserOrders.tsx:52-58 | check iff "Aceptado", cross iff "Rechazado", clock otherwise |
| UserOrders.ColorMatchesIcon | src/components/UserOrders.tsx:44-58 | the colour and the icon always agree |
| UserOrders.UpperCaseStatesLookPending | src/components/UserOrders.tsx:44-58 | the upper-case states of the back office all show yellow, a clock and no pulse (with line 135) |
| AdminDomiciliarios.BranchOptions | src/components/admin/AdminDomiciliarios.tsx:231-243 | the placeholder "" then one value per branch, in order |
| AdminDomiciliarios.BranchName | src/components/admin/AdminDomiciliarios.tsx:111-114 | the name of the first branch with that id, "Sin Asignar" when none has it |
| AdminDomiciliarios.SubmitDriver | src/components/admin/AdminDomiciliarios.tsx:53-101 | refused iff name, surname or a non-zero numeric branch is missing; update iff the edited driver has an id; the payload copies the form and repeats the branch id three times |
| AdminDomiciliarios.PlaceholderIsRefused | src/components/admin/AdminDomiciliarios.tsx:63-65 | leaving the select on its placeholder refuses the submit (with line 237) |
| AdminDomiciliarios.ChosenBranchIsSent | src/components/admin/AdminDomiciliarios.tsx:63-87 | the chosen branch's id is sent, and the list then shows that branch's name (with lines 111-114, 239) |
| AdminDomiciliarios.DriverListingShows | src/components/admin/AdminDomiciliarios.tsx:116-119 | exactly the fetched drivers whose name or surname contains the term in any case, ids descending, each as many times as fetched (with line 25) |
| AdminDomiciliarios.DriverEditor.constructor | src/components/admin/AdminDomiciliarios.tsx:9-14 | empty lists, no search, modal closed |
| AdminDomiciliarios.DriverEditor.LoadData | src/components/admin/AdminDomiciliarios.tsx:17-34 | a failure empties the drivers and keeps the branches; a success stores the sorted drivers and the branches, [] for an answer that is not a list |
| AdminDomiciliarios.DriverEditor.SetSearchTerm | src/components/admin/AdminDomiciliarios.tsx:137 | the input sets the term |
| AdminDomiciliarios.DriverEditor.OpenEditor | src/components/admin/AdminDomiciliarios.tsx:129 | the modal opens on the given driver or on none (with line 182) |
| AdminDomiciliarios.DriverEditor.HandleSubmit | src/components/admin/AdminDomiciliarios.tsx:53-108 | the action is the submit decision; the modal closes only after an accepted, successful save |
| AdminAuxiliares.AssistantBranchOptions | src/components/admin/AdminAuxiliares.tsx:188-200 | the placeholder "" then the value "1" for every branch |
| AdminAuxiliares.SubmitAssistant | src/components/admin/AdminAuxiliares.tsx:45-71 | refused iff name, surname or a non-zero numeric branch is missing; update iff the edited assistant has an id; the payload copies the form |
| AdminAuxiliares.EveryOptionSendsBranchOne | src/components/admin/AdminAuxiliares.tsx:51-60 | whatever option is picked, the submit is refused (placeholder or missing name) or carries branch 1 (with lines 194-196) |
| AdminAuxiliares.SavedAssistantShowsBranchOne | src/components/admin/AdminAuxiliares.tsx:79-82 | a saved assistant is listed under the name of branch 1, whichever branch was picked (with line 196) |
| AdminAuxiliares.AssistantListingShows | src/components/admin/AdminAuxiliares.tsx:84-87 | exactly the fetched assistants whose name or surname contains the term in any case, ids descending, each as many times as fetched (with line 22) |
| AdminAuxiliares.AssistantEditor.constructor | src/components/admin/AdminAuxiliares.tsx:8-13 | empty lists, no search, modal closed |
| AdminAuxiliares.AssistantEditor.LoadData | src/components/admin/AdminAuxiliares.tsx:15-30 | a failure empties the assistants and keeps the branches; a success stores the sorted assistants and the branches |
| AdminAuxiliares.AssistantEditor.SetSearchTerm | src/components/admin/AdminAuxiliares.tsx:104 | the input sets the term |
| AdminAuxiliares.AssistantEditor.OpenEditor | src/components/admin/AdminAuxiliares.tsx:97 | the modal opens on the given assistant or on none (with line 145) |
| AdminAuxiliares.AssistantEditor.HandleSubmit | src/components/admin/AdminAuxiliares.tsx:45-77 | the action is the submit decision; the modal closes only after an accepted, successful save |
| Assistant.DriverLoadMap | src/pages/Assistant.tsx:116-134 | empty until both lists arrive; then one key per driver with a non-zero id, true iff some accepted or sent order names that driver |
| Assistant.AvailableDriversAreOnFile | src/pages/Assistant.tsx:47-73 | the modal lists exactly the active drivers with an id, and each of them is a key of the load map |
| Assistant.ClientName | src/pages/Assistant.tsx:137-140 | "nombre apellido" of the first user with the id, "Cliente #id" when users are missing or none has it |
| Assistant.LowerDigits | src/pages/Assistant.tsx:203 | lower-casing leaves digits as they are |
| Assistant.UnknownClientFoundById | src/pages/Assistant.tsx:139 | an order of an unknown client is found by searching for the client's id (with lines 201-204) |
| Assistant.DriverName | src/pages/Assistant.tsx:142-146 | a name is shown iff the id is present, not 0, not 1, and some listed driver has it; the name is "nombre apellido" of the first listed driver with that id |
| Assistant.OfferedActions | src/pages/Assistant.tsx:341-401 | Aceptar iff PENDIENTE; Asignar iff ACEPTADO without a shown driver; Despachar iff ACEPTADO with one; Cancelar iff PENDIENTE, ACEPTADO or ENVIADO |
| Assistant.ActionsMoveForward | src/pages/Assistant.tsx:341-401 | every button moves the order strictly forward, and finished orders offer none |
| Assistant.StatusChangeRequest | src/pages/Assistant.tsx:151-162 | nothing is sent iff the change is to CANCELADO and the user declines; otherwise that change for that order |
| Assistant.AssignedOrder | src/pages/Assistant.tsx:180-184 | both driver ids become the chosen one and every other field is kept |
| Assistant.AssignmentEnablesDispatch | src/pages/Assistant.tsx:143-145 | assigning a listed driver other than 1 replaces "Asignar" with "Despachar" (with lines 180-184, 359-380) |
| Assistant.DriverOneCountsAsUnassigned | src/pages/Assistant.tsx:143 | an accepted order assigned to driver 1 still offers "Asignar" and not "Despachar" (with lines 359-380) |
| Assistant.AssignmentMakesDriverBusy | src/pages/Assistant.tsx:116-126 | once saved, the assigned driver counts as busy (with lines 180-184) |
| Assistant.DeskListing | src/pages/Assistant.tsx:197-206 | exactly the loaded orders that are neither BORRADO nor ENTREGADO, have the chosen status ("TODOS": any) and match the search, ids descending, each as many times as loaded |
| Assistant.Desk.constructor | src/pages/Assistant.tsx:100-104 | no search, "TODOS", modal closed, no order picked |
| Assistant.Desk.SetSearchTerm | src/pages/Assistant.tsx:250 | the input sets the term |
| Assistant.Desk.SetFilterStatus | src/pages/Assistant.tsx:257 | the select sets the status filter |
| Assistant.Desk.OpenAssignModal | src/pages/Assistant.tsx:169-172 | the order is picked and the modal opens |
| Assistant.Desk.CloseAssignModal | src/pages/Assistant.tsx:225 | the modal closes |
| Assistant.Desk.HandleConfirmAssign | src/pages/Assistant.tsx:175-194 | without a picked order nothing is sent; otherwise the assigned order is sent, and only a successful update closes the modal and clears the pick |
| AdminPedidos.PieceId | src/components/admin/AdminPedidos.tsx:192 | a piece yields an id only when its trimmed text reads as a number greater than 0 |
| AdminPedidos.ParsePieces | src/components/admin/AdminPedidos.tsx:192 | at most one id per piece, every id positive |
| AdminPedidos.ParsePiecesCons | src/components/admin/AdminPedidos.tsx:192 | pieces are read left to right: a piece's id (if any) comes before the ids of the later pieces |
| AdminPedidos.ParseProductList | src/components/admin/AdminPedidos.tsx:190-194 | every id read from the field is positive |
| AdminPedidos.ParsePiecesSameHead | src/components/admin/AdminPedidos.tsx:192 | pieces that trim to the same text read the same |
| AdminPedidos.LeadingSpaceIgnored | src/components/admin/AdminPedidos.tsx:192 | a space typed at the start of the field changes nothing |
| AdminPedidos.RoundTripEmpty | src/components/admin/AdminPedidos.tsx:192 | the empty list shows as "" and reads back as empty (with line 366) |
| AdminPedidos.RoundTripOne | src/components/admin/AdminPedidos.tsx:192 | a single positive id reads back as itself (with line 366) |
| AdminPedidos.ParseJoinRoundTrip | src/components/admin/AdminPedidos.tsx:192 | for every list of positive ids, reading back the ", "-joined text gives the same list (with line 366) |
| AdminPedidos.ParsePiecesTrailingEmpty | src/components/admin/AdminPedidos.tsx:192 | an empty last piece adds no id |
| AdminPedidos.TypedCommaIsDropped | src/components/admin/AdminPedidos.tsx:190-194 | typing a comma at the end of the shown text leaves the list, and hence the shown text, unchanged (with line 366) |
| AdminPedidos.ToggledStatus | src/components/admin/AdminPedidos.tsx:131-134 | BORRADO becomes PENDIENTE, every other state becomes BORRADO; the state always changes |
| AdminPedidos.ToggleRequest | src/components/admin/AdminPedidos.tsx:131-137 | the toggled state is sent for that order iff the user confirms |
| AdminPedidos.ToggleTwice | src/components/admin/AdminPedidos.tsx:131-134 | deleting and restoring gives back the state only for PENDIENTE or BORRADO |
| AdminPedidos.SubmitOrder | src/components/admin/AdminPedidos.tsx:143-188 | refused iff the driver or assistant id is not a number above 0; an order with an id is updated keeping its state, with a status change iff the upper-cased form state differs; otherwise created with the form state; the payload carries the product list and mirrors its ids |
| AdminPedidos.UnchangedStatusSendsNoChange | src/components/admin/AdminPedidos.tsx:151-179 | saving without touching the state sends no status change |
| AdminPedidos.SelectStateIsUpperCase | src/components/admin/AdminPedidos.tsx:325 | every option of the state select upper-cases to itself (with line 151) |
| AdminPedidos.UpperStateSentAsIs | src/components/admin/AdminPedidos.tsx:151-179 | a state that upper-cases to itself is what a new order carries, and an edited order gets a status change iff it differs from the order's state |
| AdminPedidos.PickedStateSentAsIs | src/components/admin/AdminPedidos.tsx:151-179 | a state picked in the select is sent as picked: a new order carries it, and an edited order gets a status change iff the pick differs from its state (with line 325) |
| AdminPedidos.AdminListingShows | src/components/admin/AdminPedidos.tsx:196-199 | exactly the fetched orders that pass the filter, never BORRADO unless shown, ids descending, each as many times as fetched (with line 88) |
| AdminPedidos.EmptySearchShowsAll | src/components/admin/AdminPedidos.tsx:196-199 | with deleted orders shown and an empty search the whole fetch is listed |
| AdminPedidos.OrderEditor.constructor | src/components/admin/AdminPedidos.tsx:67-77 | no orders, no search, modal closed, nothing edited, deleted orders hidden, empty product list |
| AdminPedidos.OrderEditor.LoadOrders | src/components/admin/AdminPedidos.tsx:79-98 | the fetched orders newest first, none after a failure |
| AdminPedidos.OrderEditor.ToggleShowDeleted | src/components/admin/AdminPedidos.tsx:219 | the eye button flips whether deleted orders are shown |
| AdminPedidos.OrderEditor.SetSearchTerm | src/components/admin/AdminPedidos.tsx:231 | the input sets the term |
| AdminPedidos.EditingChanged | src/components/admin/AdminPedidos.tsx:102-105 | the `[editingOrder]` effect fires when `null` replaces an order, and when an order replaces `null` or a different object; never for `null` after `null` or the same object again |
| AdminPedidos.LoadedProductList | src/components/admin/AdminPedidos.tsx:103-104 | the effect loads the order's product list, or the empty list for a new order |
| AdminPedidos.OrderEditor.OpenEditor | src/components/admin/AdminPedidos.tsx:102-105 | the modal opens on the order (or none) (lines 222, 279); the product list is reloaded (the order's, or empty) only when `editingOrder` changes by identity, as the `[editingOrder]` dependency decides, and otherwise keeps what was typed |
| AdminPedidos.NewOrderKeepsTypedProducts | src/components/admin/AdminPedidos.tsx:222 | pressing "Nuevo Pedido" a second time after typing "7" and cancelling starts the new form with [7], because `setEditingOrder(null)` after `null` does not fire the effect |
| AdminPedidos.EditAgainKeepsTypedProducts | src/components/admin/AdminPedidos.tsx:279 | reopening the same row after typing "7" and cancelling keeps [7] instead of the order's own list |
| AdminPedidos.OrderEditor.CloseEditor | src/components/admin/AdminPedidos.tsx:302 | the modal closes (with line 379) |
| AdminPedidos.OrderEditor.HandleProductListChange | src/components/admin/AdminPedidos.tsx:190-194 | the product list becomes the ids read from the text |
| AdminPedidos.OrderEditor.HandleSubmit | src/components/admin/AdminPedidos.tsx:143-188 | the action is the submit decision on the current product list; the modal closes only after an accepted, successful save |
| AdminSucursales.FormatToBackendTime | src/components/admin/AdminSucursales.tsx:15-19 | missing or empty gives "00:00:00.000", a time of 5 UTF-16 code units gets ":00.000" appended (12 code units), anything else is kept; never empty |
| AdminSucursales.FormatToInputTime | src/components/admin/AdminSucursales.tsx:21-24 | missing or empty gives "", otherwise the first five characters (all of a shorter text) |
| AdminSucursales.TimeRoundTrip | src/components/admin/AdminSucursales.tsx:17-23 | every 5-character time of the Basic Multilingual Plane survives the trip to the server form and back |
| AdminSucursales.BackendTimeIdempotent | src/components/admin/AdminSucursales.tsx:15-19 | converting twice is converting once |
| AdminSucursales.InputDefault | src/components/admin/AdminSucursales.tsx:258-268 | the field shows the stored time cut to five characters, or the default when that is empty |
| AdminSucursales.NewBranchHours | src/components/admin/AdminSucursales.tsx:84-85 | a new branch saved with the default fields opens at "08:00:00.000" and closes at "18:00:00.000" (with lines 258, 268) |
| AdminSucursales.SubmitBranch | src/components/admin/AdminSucursales.tsx:57-95 | refused iff name, address or city is empty; update iff the edited branch has an id; the payload repeats name and address under both keys and carries both times in server form |
| AdminSucursales.ResavingKeepsHours | src/components/admin/AdminSucursales.tsx:84-85 | re-saving a branch whose times are stored in server form keeps its hours and minutes (with lines 258, 268) |
| Types.ConfirmedRequest | src/components/admin/AdminDomiciliarios.tsx:39-44 | the delete or status change is requested iff the user confirms, for that id (the same guard in AdminAuxiliares.tsx lines 34-37, AdminSucursales.tsx lines 44-48 and AdminUsuarios.tsx lines 100-103) |
| AdminSucursales.BranchListingShows | src/components/admin/AdminSucursales.tsx:105-108 | exactly the fetched branches whose name or city contains the term in any case, ids descending, each as many times as fetched (with line 32) |
| AdminSucursales.EmptySearchShowsAllBranches | src/components/admin/AdminSucursales.tsx:105-108 | an empty search lists every branch |
| AdminSucursales.BranchEditor.constructor | src/components/admin/AdminSucursales.tsx:8-12 | no branches, no search, modal closed, nothing edited |
| AdminSucursales.BranchEditor.LoadBranches | src/components/admin/AdminSucursales.tsx:27-39 | the fetched branches with ids descending, none after a failure |
| AdminSucursales.BranchEditor.SetSearchTerm | src/components/admin/AdminSucursales.tsx:135 | the input sets the term |
| AdminSucursales.BranchEditor.OpenEditor | src/components/admin/AdminSucursales.tsx:120 | the modal opens on the given branch or on none (with line 181) |
| AdminSucursales.BranchEditor.HandleSubmit | src/components/admin/AdminSucursales.tsx:57-102 | the action is the submit decision; the modal closes only after an accepted, successful save |
| AdminUsuarios.InitialForm | src/components/admin/AdminUsuarios.tsx:8-17 | every text field empty, password "", active, no id, registered today |
| AdminUsuarios.WithField | src/components/admin/AdminUsuarios.tsx:47-50 | an input changes only the field it names |
| AdminUsuarios.RetypingChangesNothing | src/components/admin/AdminUsuarios.tsx:47-50 | typing the value a field already holds leaves the form as it was |
| AdminUsuarios.FormFor | src/components/admin/AdminUsuarios.tsx:55 | a copy of the user with the password defaulting to "" |
| AdminUsuarios.PasswordToSend | src/components/admin/AdminUsuarios.tsx:78 | the typed password, or "123456" when it is empty; never empty |
| AdminUsuarios.SubmitUser | src/components/admin/AdminUsuarios.tsx:65-91 | refused iff name or email is empty; update iff editing and the form has an id; the payload copies the form's fields and the password to send |
| AdminUsuarios.PayloadIgnoresStateAndId | src/components/admin/AdminUsuarios.tsx:73-82 | the payload never depends on the form's state or id |
| AdminUsuarios.Typed | src/components/admin/AdminUsuarios.tsx:47-50 | no sequence of inputs changes the id, the state or the registration date |
| AdminUsuarios.NewUserIsCreated | src/components/admin/AdminUsuarios.tsx:53-90 | a form opened for a new user is refused or created, whatever is typed |
| AdminUsuarios.ResavingUpdatesSameUser | src/components/admin/AdminUsuarios.tsx:53-86 | opening an existing user and saving it untouched updates that user with its password or the default |
| AdminUsuarios.UserListingShows | src/components/admin/AdminUsuarios.tsx:112-125 | exactly the users that pass, each as many times as fetched; with inactive users hidden none whose state is false, "Inactivo" or null shows |
| AdminUsuarios.EmptySearchShowsActive | src/components/admin/AdminUsuarios.tsx:112-125 | an empty search shows every active user (a missing state counts as active), and everyone when inactive users are shown |
| AdminUsuarios.UserEditor.constructor | src/components/admin/AdminUsuarios.tsx:20-28 | no users, no search, inactive users hidden, modal closed, not editing, the form at its initial state |
| AdminUsuarios.UserEditor.LoadUsers | src/components/admin/AdminUsuarios.tsx:31-42 | the fetched users as they come, none after a failure |
| AdminUsuarios.UserEditor.ToggleShowInactive | src/components/admin/AdminUsuarios.tsx:140 | the button flips whether inactive users are shown |
| AdminUsuarios.UserEditor.SetSearchTerm | src/components/admin/AdminUsuarios.tsx:163 | the input sets the term |
| AdminUsuarios.UserEditor.HandleInputChange | src/components/admin/AdminUsuarios.tsx:47-50 | the form becomes the old form with that field changed |
| AdminUsuarios.UserEditor.OpenModal | src/components/admin/AdminUsuarios.tsx:53-62 | an existing user is copied for editing, no user gives the initial form for creation; the modal opens |
| AdminUsuarios.UserEditor.HandleSubmit | src/components/admin/AdminUsuarios.tsx:65-97 | the action is the submit decision on the form; the modal closes only after an accepted, successful save |
| CartPage.ShippingCost | src/components/CartPage.tsx:109 | 0 or 6000, and 0 exactly when the subtotal is at least 10000 |
| CartPage.FinalTotal | src/components/CartPage.tsx:109-110 | never below the subtotal; equal to it from 10000 on, 6000 more below |
| CartPage.FreeShippingHint | src/components/CartPage.tsx:246-248 | the "add X more" hint shows iff shipping is charged, and X is then positive and exactly what reaches free shipping |
| CartPage.ContactRules | src/components/CartPage.tsx:119-127 | an address is accepted iff its `length` (UTF-16 code units, before trimming) is at least 5 and it is not all whitespace; a phone iff at least 7 and not all whitespace; without supplementary characters the length is the number of characters |
| CartPage.BlankAddressRefused | src/components/CartPage.tsx:119 | five spaces are long enough but refused |
| CartPage.EmojiCountsTwice | src/components/CartPage.tsx:119 | four characters, one of them an emoji, make a `length` of 5 and are accepted as an address |
| CartPage.CheckoutOutcomeOf | src/components/CartPage.tsx:112-144 | no user redirects to login; the order is submitted iff logged in with an accepted address and phone (lengths in UTF-16 code units); it is placed iff the call resolves true and rejected iff the call throws; a bad address is reported before the phone |
| CartPage.CheckoutForm.constructor | src/components/CartPage.tsx:96-98 | empty address and phone, not submitting |
| CartPage.CheckoutForm.LoadContact | src/components/CartPage.tsx:101-106 | a user fills both fields ("" when missing), no user leaves them |
| CartPage.CheckoutForm.SetAddress | src/components/CartPage.tsx:202 | the input sets the address |
| CartPage.CheckoutForm.SetPhone | src/components/CartPage.tsx:216 | the input sets the phone |
| CartPage.CheckoutForm.HandleCheckout | src/components/CartPage.tsx:112-144 | the outcome is the guard cascade on the current fields; the order is submitted iff every guard passes; the submitting flag is cleared when the call resolves and stays on when it throws |
| AddToCartModal.Incremented | src/components/ui/addToCartModal.tsx:41-45 | one more iff below the stock, otherwise unchanged |
| AddToCartModal.Decremented | src/components/ui/addToCartModal.tsx:47-51 | one less iff above 1, otherwise unchanged |
| AddToCartModal.ConfirmedQuantity | src/components/ui/addToCartModal.tsx:53-58 | the quantity is handed over iff it is positive and within the stock |
| AddToCartModal.RunStaysInRange | src/components/ui/addToCartModal.tsx:41-51 | from a quantity in 1..max(1, stock) no sequence of presses leaves that range |
| AddToCartModal.ConfirmAfterAnyPresses | src/components/ui/addToCartModal.tsx:28-58 | after opening and any presses, confirming succeeds iff the stock is at least 1, and hands over a quantity within it |
| AddToCartModal.Modal.constructor | src/components/ui/addToCartModal.tsx:15 | closed, no product, quantity 1 |
| AddToCartModal.Modal.Open | src/components/ui/addToCartModal.tsx:28-30 | opening with a product resets the quantity to 1 |
| AddToCartModal.Modal.Close | src/components/ui/addToCartModal.tsx:67 | the modal closes |
| AddToCartModal.Modal.HandleIncrement | src/components/ui/addToCartModal.tsx:41-45 | the quantity steps up as `Incremented` says, keeping it in range |
| AddToCartModal.Modal.HandleDecrement | src/components/ui/addToCartModal.tsx:47-51 | the quantity steps down as `Decremented` says, keeping it in range |
| AddToCartModal.Modal.HandleConfirm | src/components/ui/addToCartModal.tsx:53-58 | hands over the confirmed quantity, and the modal stays open iff nothing was confirmed |
| ProtectedRoute.RouteDecision | src/components/ProtectedRoute.tsx:10-34 | exactly one outcome: verifying iff loading; login redirect iff no user; store redirect iff another role; the administration iff the required role |
| ProtectedRoute.OnlyAdminLoginPasses | src/components/ProtectedRoute.tsx:28-33 | a session opened by login reaches the administration iff it used the administrator credentials |
| CartPage.NavigationAfter | src/components/CartPage.tsx:112-144 | the page goes to "/login" iff there is no user, to "/profile" iff the order was placed, and nowhere otherwise (including a rejected call) |

## Left out

- Browser storage and JSON are not modelled. The provider receives the stored session, accounts and cart already parsed.
- Toasts, alerts, `navigate` side effects, React Query polling and timers are not modelled. Where a page navigates, the model returns the target.
- Network calls are not modelled. Their outcomes are parameters, and the bodies of requests are results.
- `submitOrder`, `updateUserProfile` and `getOrders` are not part of this model. Their answers are parameters. The provider at src/context/GlobalContext.tsx:235-239 supplies neither `submitOrder` nor `updateUserProfile`, so as the storefront is wired both calls throw. The model covers the throw and a normal answer alike.
- Common.ToLower: covers Basic Latin and Latin-1 only. Letters outside Latin-1, such as Ā, are left unchanged, while JavaScript lower-cases them.
- Common.LowerChar: lower-cases only the capitals of Basic Latin and Latin-1. Other capitals, such as Ā (U+0100), are left unchanged, and so is İ (U+0130), which JavaScript turns into two characters.
- Common.UpperChar: upper-cases only Basic Latin and Latin-1 letters (with µ and ÿ, whose capitals lie outside Latin-1). Other small letters, such as ā (U+0101), are left unchanged.
- Common.ToUpper: follows Common.UpperChar, with ß becoming "SS". The other letters that JavaScript expands to several characters (for example ŉ and the ligatures ﬀ to ﬆ) are left unchanged.
- AdminSucursales.FormatToInputTime: cuts at five characters, while `substring(0, 5)` cuts at five UTF-16 code units. The two agree unless the first five characters include one outside the Basic Multilingual Plane. Time inputs and the server never produce such a character. A cut through a surrogate pair has no counterpart among Dafny characters.
- Strings are sequences of Unicode scalar values. Every test of a string's `length` in the core (src/components/CartPage.tsx:119-127, src/components/admin/AdminSucursales.tsx:17) goes through Common.JsLength, which counts UTF-16 code units as JavaScript does.
- Common.ParseNumber: models `Number` on decimal digit text only. The empty string is 0, a run of decimal digits is its value, and any other text is NaN. JavaScript reads more: a sign ("+3", "-100"), a fraction ("2.5", "3."), an exponent ("1e3"), a hex prefix ("0x10") and surrounding whitespace. The order editor can supply such text in two places. One is its free-text product-id field (src/components/admin/AdminPedidos.tsx:365-367). The other is its three `type="number"` cost inputs (lines 350-352), which accept "-100" and "12.5". In the model, a cost read from such text is `None`, where JavaScript gives a number (lines 165-167). The select-driven ids (branch, driver, assistant) are always digit text.
- AdminPedidos.PieceId: a piece that JavaScript's `Number(s.trim())` (src/components/admin/AdminPedidos.tsx:192) reads as a positive number but that is not plain digits gives no id here, so the piece is dropped. Examples are "+3", "2.5", "1e3", "0x10" and "3.". In the source such a piece is kept, as a possibly fractional id. The model's product ids are natural numbers.
- `Object.entries` is modelled on the integer keys `groupedItems` produces, listed in ascending order. JavaScript lists a key in that order only when it is an array index (0 to 2^32 − 2). Negative ids, and ids of 2^32 − 1 or more, come after the array indices in insertion order, and this is not modelled.
- The driver panel's comparator (delivered last, then id descending) is modelled as two filtered groups, each stably sorted by id. The lemmas state the order the comparator defines, not the sort call itself.
- Seqs.SortBy: is proved sorted and a permutation of its input, but its stability is proved only for a comparator that always answers 0.
- The catalog's id filter (`filters.searchQueryID`, src/pages/Store.tsx:42-46) is kept in the filter state. The sidebar calls a `setSearchQueryID` that the provider does not supply, so the filter stays empty.
- The sign-in form's `onSubmit` calls `handleLogin` directly and bypasses the email check (src/components/SignIn.tsx:57). Only the button path through `validateAndSubmit` is modelled.
- The assignment modal's select widgets and the HH:MM time input are not modelled. Their chosen values are parameters.
- AdminPedidos' `getDriverName`, `getAssistantName`, `getUserName` and `getUserPhone` (src/components/admin/AdminPedidos.tsx:107-129) are display lookups and are not modelled.
- The status colour and badge helpers are display-only and are not modelled: AdminPedidos `getStatusColor` (src/components/admin/AdminPedidos.tsx:201-208) and the assistant panel's `getStatusBadge` (src/pages/Assistant.tsx:209-216).
- The branch map, geocoding, and the purely presentational components are not part of this model.
- The per-line subtotal of the order history (price times quantity, formatted with `toLocaleString`) is display only and is not modelled.
- The total under the add-to-cart modal's counter (src/components/ui/addToCartModal.tsx:120, price times quantity) is display only and is not modelled.
