# Chai Bisket ordering core, modelled in Dafny

This project models the ordering logic of the Chai Bisket restaurant site. The site is a Next.js front end that keeps all of its state in the browser's local storage. The model covers:

- the menu component, which picks the active menu window from the time of day, lists the categories and items on show, and adds items to the cart;
- the cart page, with its quantity buttons, removal, totals and checkout button;
- the checkout page, with its entry guards, its three steps, and placing an order (the order record, loyalty points, clearing the cart);
- the sign-up, sign-in and profile pages, with their form validation, the account list and the session.

The structure:

- Storage is a `LocalStorage` object with one field per key: `cart`, `users`, `orders` and `user` (the session). Each field is a `Slot`.
  - `Absent` means the key is missing or holds the empty string. Every page tests the stored text for truthiness before parsing it (`if (savedCart)`, `if (!user)`, `|| '[]'`), so the two read alike.
  - `Garbled` means it holds non-empty text that does not parse.
  - `Holds(v)` means it holds a value.
- Each page is a class. Its fields are the component's state, and `const store` is the storage it shares.
- Event handlers are methods whose `modifies` clauses name exactly the state they touch.
- Navigation is returned as a route string, or `None` when the page stays.
- Money is exact: `real` dollars.
- The catalog is defined once in `Catalog`. The three pages hold identical copies of it.

Modules, one per file:

| file | module | models |
|---|---|---|
| common.dfy | `Common`, `Sequences` | `Option`, storage slots, and the `filter`/`reverse`/`Set` behaviour the pages rely on |
| catalog.dfy | `Catalog` | the six menu items and lookup by id |
| records.dfy | `Records` | cart lines, accounts, sessions, delivery details, orders, the storage object |
| cart_lines.dfy | `CartLines` | the cart operations, money, and order lines, shared by the three pages |
| menu.dfy | `Menu` | `components/Menu.tsx` |
| cart_page.dfy | `Cart` | `app/cart/page.tsx` |
| accounts.dfy | `Accounts` | the e-mail and ZIP checks, account lookups, and session records |
| signup.dfy, login.dfy, checkout.dfy, profile.dfy | `Signup`, `Login`, `Checkout`, `Profile` | the four pages |

## Behaviour of the code worth knowing

- **Checkout loyalty points** (app/checkout/page.tsx:257-275). Placing an order adds floor(subtotal) to the *session's* points. It then writes that total into the matching account. It does not add the points to the account's own count.
  - The two agree when the account and the session held the same points (`Checkout.AccountGainsEarned`).
  - Otherwise the account is overwritten with the session's figure.
- **Profile save drops the id** (app/profile/page.tsx:161-170). The save writes a session record built from the page's profile, which carries no id. The model writes `id == ""`.
- **Profile save allows a shared e-mail** (app/profile/page.tsx:173-184). A save does not check the new e-mail against other accounts, so two accounts can end up with the same e-mail (`Profile.SaveCanShareEmail`). E-mail stays a unique key only through sign-up.
- **Empty return URL** (app/login/page.tsx:99). An empty `returnUrl` parameter counts as absent, and sign-in goes to "/".
- **Checkout seeds the form even when redirecting** (app/checkout/page.tsx:146-163). Unless the session is missing, the mount effect copies the session into the delivery form, even when it has just redirected to the cart or the menu.

## Model

| member | source | states |
|---|---|---|
| Catalog.FindIn | app/cart/page.tsx:109-111 | The first catalog entry with the id, or none exactly when no entry has it. |
| Catalog.CatalogWellFormed | app/checkout/page.tsx:31-86 | Catalog ids are distinct and prices positive. Exactly ids 1 to 6 resolve, each to its own entry. |
| Sequences.Filter | components/Menu.tsx:176-192 | `filter` keeps exactly the elements that pass, in their original order. |
| Sequences.FilterCounts | components/Menu.tsx:176-192 | Each element that passes is kept as often as it occurs; the others are dropped. |
| Sequences.Reverse | app/profile/page.tsx:599 | `reverse` gives the same elements back to front, each as often as before. |
| Sequences.ReverseReverse | app/profile/page.tsx:599 | Reversing twice gives the list back. |
| Sequences.Dedup | components/Menu.tsx:152-156 | `new Set(...)` spread into a list: no duplicates, and the same members as the input. |
| Sequences.DedupOrder | components/Menu.tsx:152-156 | The deduplicated list keeps first-occurrence order. |
| Common.OrEmpty | app/signup/page.tsx:133 | A missing key reads as the empty list. A stored list reads as itself. |
| Common.Utf16Length | app/signup/page.tsx:88 | A string's `length` counts UTF-16 code units: in total between one and two per character, exactly one each when no character lies beyond U+FFFF, exactly two each when all do. |
| Common.Utf16LengthOfChar | app/signup/page.tsx:88 | A single character has length 1, or 2 when it lies beyond U+FFFF. |
| Common.Utf16LengthAppend | app/signup/page.tsx:88 | Length adds up over concatenation; with the one-character value it fixes the length of every string, including ones that mix both kinds of character. |
| Common.MixedPasswordIsSixUnits | app/profile/page.tsx:214 | Two letters and two emoji are four characters but length 6. |
| Common.ThreeEmojiAreSixUnits | app/profile/page.tsx:214 | Three emoji are three characters but length 6. |
| Accounts.EmojiPasswordLongEnough | app/signup/page.tsx:88 | A password of three emoji passes the six-unit length rule. |
| CartLines.Loaded | app/cart/page.tsx:88-99 | A stored cart loads as itself. A missing or unreadable one loads as the empty cart. |
| CartLines.Bumped | components/Menu.tsx:199-201 | Every line with the id goes up by 1; ids, length, order and all other lines are kept. |
| CartLines.Added | components/Menu.tsx:194-204 | On an existing id, only that line goes up by 1, and length and order are kept. On a new id, `(id, 1)` is appended. Either way the id is then in the cart. |
| CartLines.AddedKeepsUnique | components/Menu.tsx:194-204 | Adding keeps the ids unique. |
| CartLines.Count | components/Menu.tsx:215-217 | The badge count; when every line holds at least one item, it is at least the number of lines. |
| CartLines.CountAppend | components/Menu.tsx:215-217 | The item count of two carts joined is the sum of their counts. |
| CartLines.BumpedCount | components/Menu.tsx:198-201 | Incrementing the line of a present id raises the count by exactly 1, given unique ids. |
| CartLines.AddedCount | components/Menu.tsx:194-217 | Given unique ids, each add raises the cart count by exactly 1. |
| CartLines.AddedTwice | components/Menu.tsx:194-204 | Adding the same id twice to an empty cart gives one line with quantity 2. |
| CartLines.Requantified | app/cart/page.tsx:120-122 | The lines with the id get the new quantity. Length, order and all other lines are kept. |
| CartLines.RequantifiedAbsent | app/cart/page.tsx:120-122 | Setting the quantity of an absent id leaves the cart unchanged. Nothing is inserted. |
| CartLines.RequantifiedKeepsUnique | app/cart/page.tsx:120-122 | Setting a quantity keeps the ids unique. |
| CartLines.Without | app/cart/page.tsx:126-128 | No line with the id remains. Every other line is kept, as often as it occurred and in order. |
| CartLines.WithoutAbsent | app/cart/page.tsx:126-128 | Removing an absent id changes nothing. |
| CartLines.WithoutIdempotent | app/cart/page.tsx:126-128 | Removing twice is the same as removing once. |
| CartLines.WithoutKeepsUnique | app/cart/page.tsx:126-128 | Removing keeps the ids unique. |
| CartLines.SubtotalAppend | app/cart/page.tsx:131-136 | The subtotal of two carts joined is the sum of their subtotals. |
| CartLines.SubtotalIgnoresUnknown | app/cart/page.tsx:131-136 | Lines whose id is not in the catalog add nothing to the subtotal. |
| CartLines.Subtotal | app/checkout/page.tsx:172-177 | The sum of catalog price × quantity; with no negative quantity it is not negative. |
| CartLines.Tax | app/checkout/page.tsx:179-181 | Tax never exceeds a non-negative subtotal, and subtotal plus tax is subtotal × 1.08. |
| CartLines.CheckoutTotal | app/checkout/page.tsx:179-189 | Total minus subtotal minus 8% tax is the flat 2.99 fee. |
| CartLines.CartDisplayTotal | app/cart/page.tsx:296-305 | The displayed subtotal × 1.08 + 2.99 equals subtotal + tax + fee, the checkout page's total. |
| CartLines.ExampleTotals | app/cart/page.tsx:131-136 | Two Masala Chai and one Biryani: subtotal 21.97, tax 1.7576, total 26.7176. |
| CartLines.OrderItems | app/checkout/page.tsx:225-233 | The order lines have the cart's length and order. Each carries the cart quantity and the catalog name and price, or "" and 0 for an unknown id. |
| CartLines.OrderItemsTotal | app/checkout/page.tsx:172-177 | The order lines' price × quantity add up to the cart subtotal. |
| Menu.FirstMatch | components/Menu.tsx:140-142 | The window of the first covering range, or none exactly when no range covers the minute. |
| Menu.Resolve | components/Menu.tsx:140-146 | The window of the first range covering the minute; the current window when no range covers it. |
| Menu.ResolveByTime | components/Menu.tsx:133-146 | [480,690) resolves to breakfast (overlap included), [690,960) to lunch, [960,1110) to snacks and [1110,1350) to dinner. Outside these the window is unchanged. |
| Menu.Offered | components/Menu.tsx:154 | The items whose times include the window, in catalog order. |
| Menu.OfferedCounts | components/Menu.tsx:154 | Each offered item appears as often as in the input, the others not at all. |
| Menu.OfferedCategories | components/Menu.tsx:150-157 | The names of the offered items are exactly the categories of the items available in the window. |
| Menu.CategoryNames | components/Menu.tsx:155 | Each item's category, position by position. |
| Menu.Categories | components/Menu.tsx:150-157 | "All" first, then distinct names: exactly the categories of the items offered in the window. |
| Menu.CategoriesInCatalogOrder | components/Menu.tsx:150-157 | The categories follow the catalog order of their first offered item. |
| Menu.FilteredItems | components/Menu.tsx:176-192 | An order-preserving sub-list of the catalog: exactly the items that match the category (unless "All") and, without "view all", the window. |
| Menu.MenuComponent.constructor | components/Menu.tsx:93-114 | Starts on "All", breakfast, "view all" off, with the stored cart (empty if missing or unreadable). |
| Menu.MenuComponent.Tick | components/Menu.tsx:125-147 | The active window becomes the resolved window for the clock reading. |
| Menu.MenuComponent.ChooseWindow | components/Menu.tsx:261-264 | A window button (shown only without "view all") selects its window. |
| Menu.MenuComponent.ToggleShowAll | components/Menu.tsx:282-286 | Flips "view all". Turning it on resets the category to "All". |
| Menu.MenuComponent.PickCategory | components/Menu.tsx:306-313 | Selects the category and turns "view all" off. |
| Menu.MenuComponent.ResetCategory | components/Menu.tsx:385-393 | With nothing on show, the reset button returns to "All". |
| Menu.MenuComponent.AddToCart | components/Menu.tsx:194-213 | The cart becomes `Added(cart, id)` and is written to storage. Ids stay unique, and given unique ids the count rises by exactly 1. |
| Cart.CartPage.constructor | app/cart/page.tsx:88-106 | Loads the stored cart (empty when missing or unreadable) and writes it back. |
| Cart.CartPage.RemoveFromCart | app/cart/page.tsx:126-128 | The cart becomes `Without(cart, id)` and is stored. Ids stay unique. |
| Cart.CartPage.UpdateQuantity | app/cart/page.tsx:114-123 | Below 1, the same as removing. Otherwise the quantity is overwritten, and an absent id leaves the cart unchanged. The cart is stored and ids stay unique. |
| Cart.CartPage.Summary | app/cart/page.tsx:290-305 | The three displayed amounts: subtotal, 8% tax, and a total of subtotal + tax + 2.99. |
| Cart.CartPage.Checkout | app/cart/page.tsx:139-150 | Goes to checkout if and only if a session is stored. Otherwise goes to sign-in with a return URL. |
| Accounts.IndexOf | app/signup/page.tsx:37-40 | The position of the first occurrence of the character, or -1 exactly when it does not occur. |
| Accounts.LastIndexOf | app/signup/page.tsx:37-40 | The position of the last occurrence of the character, or -1 exactly when it does not occur. |
| Accounts.ValidEmail | app/signup/page.tsx:37-40 | The computed e-mail check accepts exactly the strings of the pattern `[A-Za-z0-9._%+-]+@[A-Za-z0-9.-]+\.[A-Za-z]{2,}`. |
| Accounts.SplitMatchesPattern | app/signup/page.tsx:37-40 | Splitting at the first '@' and the last '.' and checking the three parts accepts exactly the strings of the pattern. |
| Accounts.ValidEmailShape | app/signup/page.tsx:37-40 | An accepted e-mail has exactly one '@' and ends with '.' and at least two letters. |
| Accounts.ValidZip | app/signup/page.tsx:119 | `^[0-9]{5}(?:-[0-9]{4})?$`: five or ten characters, all digits except a '-' at index 5 of a ten-character code. |
| Accounts.CheckEmail | app/login/page.tsx:54-60 | Required when empty, malformed when off the pattern, otherwise fine. |
| Accounts.FindCredential | app/login/page.tsx:77-79 | Finds a match if and only if some account has exactly this e-mail and password, and it is the first such account. |
| Accounts.IndexOfEmail | app/checkout/page.tsx:268-272 | The index of the first account with exactly this e-mail, or none when no account has it. |
| Accounts.AppendKeepsUniqueEmails | app/signup/page.tsx:136-162 | Appending an account with a new e-mail keeps e-mails unique. |
| Accounts.SessionOf | app/signup/page.tsx:165-176 | The session carries every account field except the password. |
| Accounts.SignInSession | app/login/page.tsx:83-94 | The account's session record. A missing join date becomes today. |
| Signup.ValidateSignup | app/signup/page.tsx:58-127 | Each field gets its own error, and no check short-circuits. The form passes if and only if name, address, city and state are present, the e-mail and ZIP are well formed, and the password is at least 6 UTF-16 code units long and is confirmed. |
| Signup.EmailTaken | app/signup/page.tsx:136-137 | An e-mail is taken exactly when the `findIndex` lookup of the checkout page finds it. |
| Signup.NewAccount | app/signup/page.tsx:147-159 | The new account has the given id and the form's name, e-mail, password, address, city, state and ZIP code, no phone, 0 points, and joined today. |
| Signup.SignupPage.constructor | app/signup/page.tsx:25-35 | Starts with no errors. |
| Signup.SignupPage.Submit | app/signup/page.tsx:55-189 | A failed validation writes nothing. An unreadable account list gives the general error. A taken e-mail gives the e-mail error and no session. Otherwise exactly one account is appended, its session is written, and the page goes to the profile. E-mails stay unique. |
| Login.ReturnTarget | app/login/page.tsx:99-100 | After sign-in, go to `returnUrl` when present and non-empty, else "/". |
| Login.ValidateLogin | app/login/page.tsx:46-70 | Both fields are checked, without looking at the accounts. The form passes if and only if the e-mail is well formed and the password non-empty. |
| Login.SignedUpCanSignIn | app/login/page.tsx:77-81 | After a sign-up with an e-mail no earlier account had, signing in with those credentials finds exactly the new account. |
| Login.LoginPage.constructor | app/login/page.tsx:19-23 | Starts with no errors. |
| Login.LoginPage.Submit | app/login/page.tsx:43-117 | Invalid fields, or an unreadable account list, leave the session alone. With a first exact match, the session is written and the page goes to the return target. With no match, the same generic error whether or not the e-mail exists, and the session is unchanged. |
| Checkout.Transition | app/checkout/page.tsx:573-685 | The only moves are 1→2, 2→1, 2→3 and 3→2, each by one step within 1..3. "Continue to Payment" and "Review Order" go forward, the two back buttons go back. No move checks the form. |
| Checkout.RunStaysInRange | app/checkout/page.tsx:92 | From a step in 1..3, any run of presses stays in 1..3. |
| Checkout.ReviewComesAfterPayment | app/checkout/page.tsx:92 | Reaching the review step from step 1 passes through the payment step. |
| Checkout.Seeded | app/checkout/page.tsx:146-163 | The delivery form gets the session's contact fields and keeps the instructions. |
| Checkout.SessionEmail | app/checkout/page.tsx:213-222 | The session's e-mail, or "" without a readable session. |
| Checkout.BuildOrder | app/checkout/page.tsx:224-248 | The order's lines are the cart's lines with catalog names and prices (`OrderItems`), and they add up to its subtotal. Tax is 8% and the fee is constant, total = subtotal + tax + fee. It is cash on delivery, "Pending", and carries the session e-mail, else the form's. |
| Checkout.Earned | app/checkout/page.tsx:260 | Points earned are the whole dollars of the subtotal. |
| Checkout.EarnedNonNegative | app/checkout/page.tsx:260 | An order never takes points away. |
| Checkout.WithPoints | app/checkout/page.tsx:272-274 | Only the matched account's points change. |
| Checkout.WithPointsKeepsUniqueEmails | app/checkout/page.tsx:272-274 | The points update keeps e-mails unique. |
| Checkout.AccountGainsEarned | app/checkout/page.tsx:257-275 | When the account agreed with the session, it gains exactly the points earned. |
| Checkout.Awarded | app/checkout/page.tsx:259-265 | The session after an order: only its points change, rising by the points earned. |
| Checkout.AccountsAwarded | app/checkout/page.tsx:267-275 | The account list after an order: the first account with the session's e-mail gets the session's new total, every other account is kept; an unreadable list or no match leaves it as it was. |
| Checkout.CheckoutPage.constructor | app/checkout/page.tsx:90-105 | Starts at step 1, not placed, with an empty cart and a blank form. |
| Checkout.CheckoutPage.Mount | app/checkout/page.tsx:115-164 | No session: sign-in and nothing else. Missing cart: the menu. Empty or unreadable cart: the cart page. Non-empty cart: stays. A readable session seeds the form. |
| Checkout.CheckoutPage.EditDelivery | app/checkout/page.tsx:192-200 | The delivery form takes what was typed. |
| Checkout.CheckoutPage.Press | app/checkout/page.tsx:573-685 | A shown step button moves by `Transition`. After placing, nothing moves. |
| Checkout.CheckoutPage.PlaceOrder | app/checkout/page.tsx:211-294 | Only on the review step before placing. Appends exactly one order at the end, unless the order list is unreadable. When it is saved and the session parses, the points are awarded (`Awarded`, `AccountsAwarded`). The cart is removed and the placed state is set regardless. |
| Checkout.CheckoutPage.AwardPoints | app/checkout/page.tsx:257-279 | The session and the account list become `Awarded` and `AccountsAwarded`; e-mails stay unique. |
| Profile.ParseTab | app/profile/page.tsx:18-26 | A tab is chosen if and only if the parameter names one of the four tabs. |
| Profile.TabNameRoundTrip | app/profile/page.tsx:22 | Every tab's name selects that tab. |
| Profile.ProfileOf | app/profile/page.tsx:47-58 | The profile copies the session, with today for a missing join date. |
| Profile.Edited | app/profile/page.tsx:161-167 | A save replaces name, e-mail, phone and address and keeps the rest. |
| Profile.SessionOfProfile | app/profile/page.tsx:161-170 | The session written by a save has no id, keeps the join date, and reads back as the saved profile. |
| Profile.EditedAccount | app/profile/page.tsx:176-182 | The stored account gets only the four form fields replaced. |
| Profile.SaveCanShareEmail | app/profile/page.tsx:173-184 | A save can give an account another account's e-mail. |
| Profile.ValidateProfile | app/profile/page.tsx:119-157 | The form passes if and only if name, phone and address are present and the e-mail is well formed. Each failing field gets its error. |
| Profile.ValidatePasswords | app/profile/page.tsx:194-230 | Passes if and only if the current password is present, the new one is at least 6 UTF-16 code units long, and the confirmation equals it. |
| Profile.PlacedBy | app/profile/page.tsx:580 | Exactly the orders whose `userEmail` equals the e-mail, each as often as stored, in stored order. |
| Profile.OrderHistory | app/profile/page.tsx:579-599 | Exactly the orders under the e-mail, each as often as stored, newest first: read backwards, they keep their stored order. |
| Profile.ProfilePage.constructor | app/profile/page.tsx:12-95 | Starts on the profile tab, not editing, with blank forms. |
| Profile.ProfilePage.Mount | app/profile/page.tsx:18-73 | The tab follows a valid parameter. A readable session loads the profile and the form. Otherwise the page goes to sign-in. |
| Profile.ProfilePage.EditForm | app/profile/page.tsx:102-108 | The profile form takes what was typed. |
| Profile.ProfilePage.SaveProfile | app/profile/page.tsx:118-191 | An invalid form writes nothing. A valid one writes the session. Then, if the account list is readable, the account found by the pre-edit e-mail gets the four fields, others are unchanged, and editing ends. |
| Profile.ProfilePage.EditPasswords | app/profile/page.tsx:110-116 | The password form takes what was typed. |
| Profile.ProfilePage.ChangePassword | app/profile/page.tsx:193-239 | Validation only. On success the form is cleared, and storage is never touched. |
| Profile.ProfilePage.History | app/profile/page.tsx:579-599 | The history tab lists exactly the stored orders under the profile's e-mail, each as often as stored, newest first. |
| Profile.ProfilePage.Logout | app/profile/page.tsx:241-245 | The session is removed and the page goes home. |

## Left out

- Rendering: JSX, styling, animation and images. Catalog descriptions and image paths are display-only.
- IEEE double arithmetic and `toFixed(2)` rounding. Money is exact here, so amounts are the ideal decimal values, not the doubles the browser computes.
- The browser and the clock are left out or become parameters:
  - `localStorage` becomes the `LocalStorage` object, and `JSON.parse` failure becomes a `Garbled` slot. Writes always succeed: a `setItem` failure such as a full quota, which the pages' `try` blocks would catch, is not modelled.
  - `router.push` becomes a returned route. The 3-second delay before leaving checkout is not modelled.
  - The clock's one-minute interval becomes explicit `Tick` calls.
  - `Date.now()` ids and `toLocaleString`/`toLocaleDateString` dates are parameters (`newId`, `today`, `orderId`, `orderDate`).
- Values JSON can hold but the page does not expect are not modelled: a `cart` key holding valid JSON that is not a list, or records with missing fields. An absent text field is "".
- The landing page's cart badge duplicates `CartLines.Count`, with parse failure reading as 0. The navigation bar and button components only display.
- The contact API route forwards messages to an e-mail service over the network.
- The cross-tab `storage` event, the `isClient` and `isLoading` flags, and the show-password toggles only affect display.
- The checkout page's card-payment form: its fields are never read, since payment is cash on delivery.
- The profile sidebar's tab buttons and the Edit and Cancel buttons only set page state. They have no members.
- Profile.ProfilePage.History: requires the order list to parse. The page parses it during rendering and does not handle a failure.
- The category buttons for a sample window are not worked out as a concrete example. `Menu.Categories` and `Menu.CategoriesInCatalogOrder` state them for every window.
