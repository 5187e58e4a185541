# Global Bites: a Dafny model of the cart, the contact form and the food wall

Global Bites is a static restaurant site. Its behaviour lives in four browser scripts. This project models them in Dafny and proves what they promise:

- `script.js`: the shared `ShoppingCart`. It keeps a list of line items in `localStorage` under `globalBitesCart` and shows the item count on the navbar badge.
- `cart.js`: the `CartPage`. It has the "-", "+" and remove buttons and a typed quantity that must lie in [1, 99]. It also has the order summary (8% tax plus a 3.99 delivery fee), the checkout button that is disabled on an empty cart, and the checkout step.
- `contact.js`: the `ContactForm` validators for name, email and phone, the per-field verdict with the `is-valid`/`is-invalid` classes it leaves, and the whole-form check.
- `foodwall.js`: the `FoodWall`. It loads posts, falling back to three sample posts. It filters by type, searches free text, and shows the age of a post, its rating stars, its dish emoji, and the post found on a card click.

Layout, one module per file:

- `wrappers.dfy` (`Wrappers`): `Option` and `Result`.
- `seqs.dfy` (`Seqs`): `Array.prototype.filter` and `find` on sequences, and subsequence facts.
- `text.dfy` (`Text`): JavaScript's `\s`, `trim`, ASCII `toLowerCase`, `includes`, the first-matching-key lookup both emoji tables use, and decimal printing.
- `cart.dfy` (`Cart`): the storage, the item list as values, and the `ShoppingCart` class.
- `cart_page.dfy` (`CartView`): the `CartPage` class and its list functions.
- `contact.dfy` (`Contact`): the validators, and the `Field` and `ContactForm` classes.
- `foodwall.dfy` (`Feed`): posts, filter, search, card parts, and the `FoodWall` class.

How the source's forms carry over:

- Objects whose methods update their fields are classes: `ShoppingCart`, `CartPage`, `Field`, `ContactForm`, `FoodWall` and `LocalStorage`.
- Each method of these classes is proved against a function on values. For example, `AddItem` ends with `items == Added(old(items), …)`. The lemmas about `Added`, `Removed`, `QuantitySet`, `Decreased`, `Increased` and `DirectlySet` carry what the source promises.
- The `reduce` loops (`getTotalItems`, `getTotalPrice`) and the `forEach` of `validateForm` are loops with invariants.

## Model

| member | source | states |
|---|---|---|
| Seqs.Filter | script.js:37 | the result is no longer than the input, every kept element passes the test and comes from the input, and every passing element is kept |
| Seqs.FirstIndex | script.js:18 | `find`: the index found passes the test and no earlier one does; `None` only when no element passes |
| Seqs.FilterIsSubsequence | foodwall.js:152 | filtering keeps the order of what it keeps |
| Seqs.FilterIdempotent | contact.js:92 | filtering twice by the same test is filtering once |
| Seqs.FilterMembership | foodwall.js:189-193 | an element is kept exactly when it is in the input and passes the test |
| Seqs.FilterExactly | foodwall.js:149-160 | filtering yields an ordered subsequence holding exactly the passing elements, each as many times as in the input |
| Seqs.FilterCounts | script.js:37 | a passing element occurs in the result as often as in the input, a failing one not at all |
| Seqs.FilterAppend | script.js:37 | filtering distributes over concatenation |
| Text.Trim | contact.js:42 | `trim`: the result is no longer than the input and neither starts nor ends with whitespace |
| Text.TrimStripsOnlySpace | contact.js:42 | trimming removes only whitespace, and only from the two ends |
| Text.TrimEmptyIffAllSpace | cart.js:174-180 | a trimmed value is empty exactly when the text is all whitespace, so such an address is refused |
| Text.TrimOfTrimmed | foodwall.js:187 | trimming a trimmed string changes nothing |
| Text.ToLower | foodwall.js:187 | lower-casing keeps the length and maps each ASCII capital to its small letter |
| Text.ContainsIffOccurs | foodwall.js:190-192 | `includes` holds exactly when the needle is a slice of the text at some index |
| Text.Contains | foodwall.js:190-192 | `includes`: the empty needle is always found, and a needle found is no longer than the text |
| Text.FirstKeyIn | foodwall.js:141-146 | the first table key, in listing order, that occurs in the text; `None` when no key occurs |
| Text.LookupBySubstring | foodwall.js:141-146 | the value of the first key the text contains; the default when it contains none |
| Text.NatToString | foodwall.js:238-240 | the printed number is a non-empty run of decimal digits with no leading zero, and reads back as the number |
| Cart.LocalStorage.SetItem | script.js:14 | writing a key replaces that key's value and leaves the other keys alone |
| Cart.LoadCart | script.js:8-11 | a stored list loads as itself; an absent key or the empty string loads as the empty cart; anything else stored fails (`JSON.parse` throws, or the value is not a list) |
| Cart.SaveThenLoad | script.js:8-15 | saving a list and loading it back gives the same list, and no other key changes |
| Cart.LoadAbsent | script.js:9-10 | an absent key, or one holding the empty string, loads as the empty cart |
| Cart.FindUnique | script.js:18 | with unique ids, `find` on an entry's id returns that entry |
| Cart.FindAbsent | script.js:18 | `find` fails exactly when no entry has the id |
| Cart.Added | script.js:17-29 | find-or-create: the list grows by one exactly when the id was absent, and afterwards holds the id |
| Cart.Removed | script.js:36-37 | the result is no longer than the list and holds no entry with the id |
| Cart.QuantitySet | script.js:42-53 | a quantity of 1 or more keeps every position and id; 0 or less leaves no entry with the id |
| Cart.AddMergesExisting | script.js:17-21 | adding a present id raises that entry's quantity by the amount added; its name and price stay, and the other entries are untouched |
| Cart.AddAppendsNew | script.js:22-29 | adding an absent id appends exactly one new entry at the end and keeps the rest in place |
| Cart.AddKeepsIdsUnique | script.js:17-29 | find-or-create never produces two entries with the same id |
| Cart.AddKeepsQuantitiesPositive | script.js:17-29 | adding a positive amount keeps every quantity at 1 or more |
| Cart.AddTotals | script.js:17-29 | adding raises the item count by the amount, and the price by that many units at the price already in the cart (or the given price for a new id) |
| Cart.RemoveKeepsOthers | script.js:36-37 | removal keeps exactly the entries with another id, in order and with their multiplicity |
| Cart.RemoveIdempotent | script.js:36-37 | removing the same id twice is removing it once |
| Cart.RemoveAbsent | script.js:36-37 | removing an id that is not there changes nothing |
| Cart.RemoveKeepsIdsUnique | script.js:36-37 | removal keeps the ids unique |
| Cart.RemoveKeepsQuantitiesPositive | script.js:36-37 | removal keeps every quantity at 1 or more |
| Cart.RemoveTotals | script.js:36-37 | removing an entry takes exactly its quantity and its line price off the totals |
| Cart.UpdateAbsentIsNoop | script.js:42-44 | updating an id that is not there changes nothing |
| Cart.UpdateToNonPositiveRemoves | script.js:45-47 | setting a quantity of 0 or less removes the entry, as removal does |
| Cart.UpdateSetsQuantity | script.js:45-50 | setting a positive quantity changes that entry's quantity only, at the same position |
| Cart.UpdateKeepsIdsUnique | script.js:42-53 | an update keeps the ids unique |
| Cart.UpdateKeepsQuantitiesPositive | script.js:42-53 | an update keeps every quantity at 1 or more, because a non-positive one removes the entry |
| Cart.EmptyTotals | script.js:55-61 | an empty cart counts 0 items and costs 0 |
| Cart.TotalsNonNegative | script.js:55-61 | with no negative price or quantity, neither total is negative |
| Cart.TotalsAppend | script.js:55-61 | both totals add up over concatenated lists |
| Cart.TotalsReplace | script.js:55-61 | replacing one entry changes each total by the difference between the new and the old entry |
| Cart.TotalsSplitById | script.js:55-61 | each total is the total of the entries with an id plus the total of the others |
| Cart.CountAtLeastEntries | script.js:55-57 | with positive quantities, the badge count is at least the number of entries |
| Cart.ShoppingCart.constructor | script.js:3-6 | the cart holds what storage holds, and the badge shows its count |
| Cart.ShoppingCart.SaveCartToStorage | script.js:13-15 | the cart key now holds the whole list, and no other key changes |
| Cart.ShoppingCart.UpdateCartCount | script.js:69-80 | the badge shows the sum of the quantities |
| Cart.ShoppingCart.GetTotalItems | script.js:55-57 | the running sum equals the total quantity |
| Cart.ShoppingCart.GetTotalPrice | script.js:59-61 | the running sum equals the sum of price times quantity |
| Cart.ShoppingCart.AddItem | script.js:17-34 | the list becomes the find-or-create result and is saved, and the badge is refreshed |
| Cart.ShoppingCart.RemoveItem | script.js:36-40 | the list keeps only the other ids and is saved, even when nothing was removed |
| Cart.ShoppingCart.UpdateQuantity | script.js:42-53 | a present id gets the quantity (removed when 0 or less) and is saved; an absent id leaves list and storage untouched |
| Cart.ShoppingCart.ClearCart | script.js:63-67 | the list is empty, storage holds the empty list, and the badge shows 0 |
| Cart.Rehydrate | script.js:3-11 | a new cart on the same storage finds the list the old one saved |
| CartView.Summarize | cart.js:83-87 | the summary keeps the subtotal, charges tax at 8% of it, and totals subtotal, tax and the 3.99 fee |
| CartView.SummaryTotal | cart.js:83-87 | total = subtotal × 1.08 + 3.99; never below the fee for a non-negative subtotal; total − subtotal = fee + tax |
| CartView.EmptyCartSummary | cart.js:83-87 | an empty cart shows subtotal 0, tax 0 and total 3.99 |
| CartView.TwoItemSummary | cart.js:83-87 | two at 10 plus one at 5 show subtotal 25, tax 2 and total 30.99 |
| CartView.LineTotals | cart.js:32 | one line total per item, in order, each that item's price × quantity |
| CartView.LineTotalsAddUpToSubtotal | cart.js:32 | the line totals on the page add up to the summary's subtotal |
| CartView.ItemEmoji | cart.js:57-81 | the emoji of the first listed key the item name contains, else the plate |
| CartView.ChickenBeatsBiryani | cart.js:57-81 | an earlier key wins: "Chicken" before "Biryani" |
| CartView.Decreased | cart.js:138-145 | "-" keeps every position and id, and lowers the item count by 1 exactly when the item is there with a quantity above 1 |
| CartView.Increased | cart.js:147-154 | with positive quantities, "+" keeps the length and raises the item count by 1 exactly when the item is there |
| CartView.DirectlySet | cart.js:162-171 | an accepted entry for a present item moves the item count by the new quantity minus the old; a refused entry or an absent item changes nothing |
| CartView.DecreaseNeverRemoves | cart.js:138-145 | "-" lowers a quantity above 1 by exactly 1, leaves a 1 alone, and never removes an entry |
| CartView.IncreaseAddsOne | cart.js:147-154 | "+" raises a present item by exactly 1 and touches nothing else |
| CartView.ButtonsIgnoreAbsentId | cart.js:138-154 | both buttons leave the list alone for an unknown id |
| CartView.DirectEntryGuard | cart.js:162-171 | a typed quantity outside [1, 99] or unparsable changes nothing; one inside sets that item's quantity |
| CartView.IncreasePassesEntryCap | cart.js:147-171 | "+" can reach 100, which typing would refuse |
| CartView.EditsKeepInvariants | cart.js:138-171 | all three edits keep ids unique and quantities at 1 or more |
| CartView.CartPage.constructor | cart.js:3-12 | the page shows the summary of the shared cart |
| CartView.CartPage.UpdateOrderSummary | cart.js:83-96 | the panel shows the summary of the current subtotal; checkout is disabled exactly when the cart is empty |
| CartView.CartPage.DecreaseQuantity | cart.js:138-145 | the cart becomes the decreased list; storage is rewritten with it when it changed and left alone when it did not; the panel stays current |
| CartView.CartPage.IncreaseQuantity | cart.js:147-154 | the cart becomes the increased list and is saved for a present id; an absent id writes nothing |
| CartView.CartPage.RemoveItem | cart.js:156-160 | the cart loses the id and is saved; the panel stays current |
| CartView.CartPage.UpdateItemQuantity | cart.js:162-171 | an accepted entry for a present item sets the quantity and saves the list; a refused entry or an absent item leaves storage untouched |
| CartView.CartPage.HandleCheckout | cart.js:173-193 | a blank address changes nothing; otherwise the subtotal is stored under `lastOrderTotal` and the cart is emptied |
| CartView.StoredAmountIsSubtotal | cart.js:183 | the amount checkout stores (the subtotal) is never the total the page shows: for a cart without negative prices or quantities it is below it by at least the delivery fee |
| Contact.IsValidName | contact.js:96-99 | a valid trimmed name has at least 2 characters and starts and ends with a letter |
| Contact.NameExamples | contact.js:96-99 | "Jo Li" passes; a single letter fails; a digit fails |
| Contact.IsValidEmail | contact.js:84-87 | a valid address has at least 5 characters and holds an '@' and a '.' |
| Contact.EmailShape | contact.js:84-87 | an address is valid exactly when it has no whitespace and exactly one '@', not first, with a '.' after it that is neither right after the '@' nor last |
| Contact.EmailExamples | contact.js:84-87 | "ana@example.com" passes; a missing dot fails; a doubled '@' fails |
| Contact.StripSeparators | contact.js:92 | cleaning never lengthens the number and leaves no space, dash or parenthesis |
| Contact.StripKeepsOthers | contact.js:92 | cleaning keeps every other character, as often as it occurs and in order |
| Contact.IsValidPhone | contact.js:89-94 | a valid number holds a digit from 1 to 9 |
| Contact.PhoneShape | contact.js:89-94 | a valid number, cleaned, is an optional '+' then 1 to 16 digits, the first not 0, so at most 16 characters without the '+' and 17 with it |
| Contact.PhoneIgnoresSeparators | contact.js:89-94 | cleaning first does not change the verdict |
| Contact.StripPlain | contact.js:92 | text without separators is left as it is |
| Contact.StripAppend | contact.js:92 | cleaning distributes over concatenation |
| Contact.StripAround | contact.js:92 | a single separator between two clean parts is dropped |
| Contact.StripDashed | contact.js:92 | cleaning "+1-55" removes the dash and keeps the rest in order |
| Contact.PhoneAcceptsDashed | contact.js:89-94 | "+1-55" is a valid number |
| Contact.PhoneRefusesLeadingZero | contact.js:89-94 | a number starting with 0 is refused |
| Contact.PhoneRefusesLetter | contact.js:89-94 | a letter in the number is refused |
| Contact.FieldVerdict | contact.js:41-74 | an empty required field fails; a passing email has 5 characters and an '@'; a passing tel is non-empty; a passing "name" text has at least 2 characters; any other type passes exactly when it is not an empty required field |
| Contact.OptionalEmptyFieldVerdict | contact.js:41-74 | an empty optional field is still checked by type: empty email, tel or "name" text fail, anything else passes |
| Contact.Field.constructor | contact.js:41-46 | a control starts with its attributes and value and no validation mark |
| Contact.ContactForm.constructor | contact.js:2-6 | the form holds its distinct controls in document order |
| Contact.ContactForm.ValidateField | contact.js:41-82 | returns the field's verdict on its trimmed value; `is-invalid` exactly when it fails, `is-valid` exactly when it passes and is non-empty |
| Contact.ContactForm.ValidateForm | contact.js:28-39 | true exactly when every required input and textarea passes; every one of them is marked, even after a failure; other controls keep their marks |
| Feed.LoadPosts | foodwall.js:15-66 | a stored list is used as it is; absent or empty storage gives the samples; unparsable text is an error |
| Feed.SampleWall | foodwall.js:22-65 | the samples are ids 1, 2 and 3; "chef" shows only Marco's post; "featured" shows all three |
| Feed.FilteredPosts | foodwall.js:149-160 | an ordered subsequence: exactly the customer posts, the chef posts, or the posts rated 5 or by a chef, each as often as in the wall; any other filter shows every post |
| Feed.SearchResults | foodwall.js:186-198 | an empty query shows the filtered grid; otherwise exactly the posts whose content, author or non-empty dish contains the query ignoring case, in order, each as often as in the wall, and regardless of the filter |
| Feed.QueryNormalised | foodwall.js:187 | the query has no whitespace at either end and no capital letter |
| Feed.MatchesQueryIff | foodwall.js:189-193 | a post matches exactly when the query occurs at some position of its lower-cased content, author or non-empty dish |
| Feed.LowerOfLower | foodwall.js:187 | text without capitals is its own lower case |
| Feed.QueryIdempotent | foodwall.js:187 | normalising a query twice is normalising it once |
| Feed.SearchNormalises | foodwall.js:186-193 | searching for the normalised query finds what the typed text finds |
| Feed.SecondsBetween | foodwall.js:235 | the whole seconds elapsed, rounded down |
| Feed.AgeOf | foodwall.js:237-240 | "Just now" below 60 s, then minutes below an hour, hours below a day, days after that, each rounded down and at least 1 |
| Feed.AgeLabel | foodwall.js:237-240 | "Just now", or the plain decimal numeral of the count (no leading zero) followed by "m ago", "h ago" or "d ago" |
| Feed.ReadsNumeral | foodwall.js:238-240 | a printed count followed by its unit reads back as that count |
| Feed.TimeAgo | foodwall.js:232-241 | "Just now" below 60 s; otherwise the plain numeral of the whole minutes, hours or days elapsed, followed by the unit of its range |
| Feed.SampleAges | foodwall.js:22-65 | the samples read "2h ago", 5 hours and "1d ago" when loaded |
| Feed.Repeat | foodwall.js:126 | `repeat`: n copies of the character |
| Feed.RatingStars | foodwall.js:123-129 | a rating from 0 to 5 gives 5 symbols, the first r full; outside that range `repeat` throws |
| Feed.CardStars | foodwall.js:89 | no stars for a missing or zero rating; for any other rating exactly the stars `createRatingStars` draws (r full then 5 − r empty for 1 to 5); an error outside 0 to 5 |
| Feed.DishEmoji | foodwall.js:131-147 | the emoji of the first listed key the dish contains, else the plate |
| Feed.ChickenBeatsPasta | foodwall.js:132-139 | "Chicken" is listed before "Pasta" and wins |
| Feed.CardEmojiAsWritten | foodwall.js:94 | a post without a dish fails; a post with one gets its dish emoji |
| Feed.MissingDishBreaksCard | foodwall.js:94 | a post without a dish cannot be drawn as written |
| Feed.CardEmoji | foodwall.js:94-95 | every post gets an emoji: the plate for no dish, otherwise what the source computes |
| Feed.PostDetail | foodwall.js:224-230 | the first post with the id; `None` exactly when no post has it |
| Feed.FoodWall.constructor | foodwall.js:2-7 | the posts are what loading gives, the filter is "all", and the grid shows every post |
| Feed.FoodWall.SelectFilter | foodwall.js:165-169 | the filter is remembered and the grid shows the filtered posts |
| Feed.FoodWall.PerformSearch | foodwall.js:186-198 | the grid shows the search results, an ordered subsequence of the posts |

## Left out

- Rendering is not modelled. This covers `innerHTML` templates, `renderCartItems`, `renderPolaroidGrid`, `renderSearchResults`, the empty-state messages, `objectToStyle` and `polaroidStyle`. The model keeps what they show as values: line totals, summary figures, stars, emoji and grid contents.
- `formatPrice` is not modelled. It calls `Intl.NumberFormat`, which is outside the model.
- Animations, timers and event wiring are not modelled: `showAddToCartAnimation`, the badge pulse, `setTimeout` and the listener setup. Event handlers are methods that callers invoke.
- `alert`, `focus` and page redirects are dropped. `showPostDetail`'s alert is dropped; its lookup is `PostDetail`.
- `handleSubmit` in contact.js and the navbar code in script.js are left out, because they only touch the DOM and a simulated timer.
- homepage.js and thankyou.js are not part of this model.
- JSON encoding is not modelled: storage holds parsed values (`Stored`, `Saved`). Text that does not parse is its own case: it is an error for `LoadCart`, and `LoadPosts` returns `None` for it.
- Cart.LoadCart fails at once on a stored number. In the source `JSON.parse` accepts it and the failure comes later, when `getTotalItems`' `reduce` runs on it (script.js:56). `Feed.Saved` has no case for stored JSON that is valid but not a list.
- Cart.ShoppingCart.constructor requires a loadable cart. The source lets `JSON.parse` throw at page load, and that throw is not modelled.
- Feed.FoodWall.constructor requires parsable stored posts, for the same reason.
- `parseFloat` and `parseInt` are not modelled. Prices are `real`, and a typed quantity arrives already parsed as `Option<int>` (`None` is `NaN`).
- Floating-point rounding is not modelled; prices and totals are exact reals. Cart.AddTotals and CartView.SummaryTotal hold for exact arithmetic, not for IEEE doubles.
- Text.ToLower covers ASCII capitals only, not full Unicode case mapping.
- Strings are sequences of code points, not UTF-16 units. This matters only for the length of emoji.
- Post timestamps are milliseconds, not ISO strings. Date parsing and the clock are not modelled; the current time is a parameter.
- Feed.PostDetail compares ids as integers. The source compares the `data-post-id` attribute string loosely (`==`) with a number, and that coercion is not modelled.
- Cart.ShoppingCart.AddItem: the default quantity of 1 (script.js:17) is not modelled. Callers pass the quantity, and every caller in the site passes 1.
- Cart.ShoppingCart.UpdateQuantity requires the cart to match what storage holds. Storage rewritten by another page or tab (the last writer wins) is not modelled.
- Cart.TotalItems and Cart.TotalPrice carry no contract of their own; Cart.TotalsNonNegative, Cart.TotalsAppend and the loops of GetTotalItems and GetTotalPrice state what they compute.
- CartView.CartPage.constructor takes the shared cart as a parameter. The `window.cart` lookup of cart.js:4 is not modelled. script.js:92 declares the cart with a top-level `const`, which creates no `window` property, so as the scripts stand `window.cart` is set only if the page does so elsewhere.
- Contact.ContactForm.constructor requires distinct controls, which document elements are.
- Contact.Field models only the `is-valid` and `is-invalid` classes, not the rest of the class list.
- CartView.CartPage.HandleCheckout clears the cart straight after storing the amount. The source clears it one second later, in a timer.
- Cart items whose stored fields are malformed are not modelled: a list is taken to hold well-typed items.

## Findings

| source | as written | input that shows it | evidently intended | confidence | as-written member | corrected member |
|---|---|---|---|---|---|---|
| foodwall.js:94 | `createPolaroidHTML` calls `getDishEmoji(post.dish)`, and `getDishEmoji` calls `dish.includes` without checking that the post has a dish | a stored post without a `dish` field: `dish.includes` throws a TypeError and the grid is not drawn | show the default plate, as lines 95, 106 and 192 already guard against a missing dish | medium, not executed | Feed.CardEmojiAsWritten, Feed.MissingDishBreaksCard | Feed.CardEmoji |
