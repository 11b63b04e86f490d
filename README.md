# Order cart and submit workflow of a small food-ordering page

This project models the order page of a two-page storefront for a Taiwanese
snack shop. The customer builds a cart from a fixed menu, fills in contact and
pickup details, and submits the order to a remote webhook.

- `wrappers.dfy`: `Option` and `Result`.
- `cart.dfy` (module `Cart`): the cart engine as pure functions over
  `seq<Line>`. A line is a menu item copied at add time plus a quantity. The
  operations are add (bump an existing line or append a new one), update by a
  delta (a line whose new quantity is zero or less is removed), remove (a
  filter), and the total (a left fold of price times quantity from 0). The
  lemmas state what each operation does to a keyed cart. They show that every
  operation keeps the invariant "ids are unique and every quantity is at least
  1", and how each one changes the total.
- `checkout.dfy` (module `Checkout`): the submit guard chain and the order
  payload. The four checks are name, phone (exactly ten ASCII digits), pickup
  time and cart, and the first failure wins. Only when all four pass is a
  payload built. It lists the cart lines without their glyph, in cart order,
  and carries the cart total.
- `order_page.dfy` (module `OrderPage`): the page component as a class. Its
  fields are the component's state slots. Its methods are the event handlers,
  the form reset, the submit attempt and the delayed completion of a sent
  order. Each method's postcondition says exactly which slots change and to
  what.
- `menu.dfy` (module `Menu`): the 18-entry menu catalogue as a fixture. It holds
  a worked cart example (total 135) and two end-to-end scenarios as verified
  client methods.

JavaScript's `find` returns the first match, while `map` and `filter` act on
every line with the id. The model keeps both literal, so `UpdateQuantity` takes the old
quantity from the first matching line and then changes or drops every line
with that id. The lemmas assume the cart invariant, under which the two
readings coincide.

Clock readings are parameters. These are the default pickup time used by the
constructor and by `ResetForm`, and the ISO timestamp put into the payload. The
network request is also a parameter: `Submit` takes a `Transport` value, either
`Sent` or `Threw`. The 2-second completion callback is its own method,
`CompleteSubmission`, which takes the payload snapshot. So the cart may change
between the two calls, as it can on the page.

## Model

| member | source | states |
|---|---|---|
| Cart.Find | Order.tsx:77 | a lookup finds nothing exactly when no line has the id; otherwise it returns a line of the cart with that id |
| Cart.FindFirst | Order.tsx:77 | when no earlier line carries the id of the line at k, the lookup returns exactly that line, as Array find returns the first match |
| Cart.FindUnique | Order.tsx:106 | in a cart with unique ids, looking up a line's id returns that very line |
| Cart.AddItem | Order.tsx:75-85 | after an add the id is in the cart; the length grows by one exactly when the id was absent |
| Cart.AddExisting | Order.tsx:76-81 | adding an id already present bumps that line's quantity by exactly 1, and every other line and the length stay the same |
| Cart.AddAbsent | Order.tsx:82-84 | adding an absent id appends one line at the end with the item's id, name, price and glyph and quantity 1; earlier lines keep their order and values |
| Cart.AddTwice | Order.tsx:75-84 | adding the same new item twice yields a single line with quantity 2, not two lines |
| Cart.AddPreservesValid | Order.tsx:75-85 | add keeps ids unique and every quantity at least 1 |
| Cart.UpdateQuantity | Order.tsx:104-119 | updating an id not in the cart leaves the cart unchanged; an update never lengthens the cart |
| Cart.UpdateRemoves | Order.tsx:109-112 | a delta with quantity + delta at most 0 removes exactly that line, covering both reaching zero and going below it |
| Cart.UpdateSets | Order.tsx:113-117 | any other delta sets that line's quantity to quantity + delta and changes nothing else |
| Cart.UpdatePreservesValid | Order.tsx:104-119 | an update by any integer delta keeps ids unique and every quantity at least 1 |
| Cart.RemoveItem | Order.tsx:121-123 | the result holds exactly the lines of the cart whose id differs, and is no longer than the cart |
| Cart.RemoveAt | Order.tsx:122 | in a keyed cart, removing an id deletes only its line and keeps the others in their original order |
| Cart.RemoveAbsent | Order.tsx:122 | removing an id that no line carries is a no-op |
| Cart.RemoveIdempotent | Order.tsx:122 | removing an id twice gives the same cart as removing it once |
| Cart.RemovePreservesValid | Order.tsx:121-123 | remove keeps ids unique and every quantity at least 1 |
| Cart.DeleteValid | Order.tsx:112 | dropping one line of a valid cart leaves a valid cart |
| Cart.TotalAppend | Order.tsx:136-138 | the total of two carts joined is the sum of their totals |
| Cart.TotalNonNegative | Order.tsx:137 | with non-negative prices and quantities the total is never negative |
| Cart.TotalSingle | Order.tsx:137 | a one-line cart totals that line's price times quantity |
| Cart.TotalSplit | Order.tsx:137 | a cart's total is the total before position k, plus the line at k, plus the total after it |
| Cart.TotalShift | Order.tsx:137 | changing one line's quantity by delta changes the total by its price times delta |
| Cart.TotalReplace | Order.tsx:137 | replacing one line changes the total by the difference of the two subtotals |
| Cart.TotalDelete | Order.tsx:137 | deleting one line lowers the total by that line's price times quantity |
| Cart.AddTotalExisting | Order.tsx:78-81 | bumping an existing line raises the total by that line's price |
| Cart.AddTotal | Order.tsx:76-84 | an add raises the total by one unit price: the existing line's copied price, or the item's price for a new line |
| Cart.UpdateTotalSets | Order.tsx:113-117 | when the line survives an update, the total changes by price times delta |
| Cart.UpdateTotal | Order.tsx:109-117 | an update raises the total by price times delta, or lowers it by the whole subtotal when the line is removed |
| Cart.RemoveTotal | Order.tsx:122 | removing a line lowers the total by its subtotal |
| Checkout.Project | Order.tsx:161 | the payload items are the cart lines in cart order with id, name, price and quantity copied and nothing else |
| Checkout.Validate | Order.tsx:150-153 | the outcome is a name error exactly when the name is empty; a phone error when the name is given but the phone is not ten digits; a pickup error when both pass but the pickup time is empty; a cart error when all three pass and the cart is empty; a payload exactly when all four pass |
| Checkout.NameCheckedFirst | Order.tsx:150-151 | with an empty name only the name error is reported, whatever the phone, pickup time and cart |
| Checkout.PhoneSamples | Order.tsx:151 | "0912345678" is accepted; a 9-digit, an 11-digit and an all-letter string are refused |
| Checkout.AcceptedPayload | Order.tsx:155-164 | an accepted payload copies the five form fields and the timestamp, lists every cart line in order, is not empty, and carries the cart total |
| Checkout.ProjectTotal | Order.tsx:161-162 | the sum of price times quantity over the payload items equals the cart total |
| Checkout.PayloadTotalConsistent | Order.tsx:161-162 | an accepted payload's totalAmount equals the sum over its own items |
| Checkout.PayloadItemsValid | Order.tsx:161 | a payload built from a valid cart has distinct item ids and positive quantities |
| OrderPage.RejectionNotice | Order.tsx:150-153 | every refused submit shows an error notification, and each guard has its own message: the name, phone, pickup and cart refusals show exactly the name, phone, pickup and item messages |
| OrderPage.MenuLookup | Order.tsx:95 | a lookup returns a catalogue entry with the chosen id, or nothing when no entry has it |
| OrderPage.MenuLookupFirst | Order.tsx:95 | when no earlier entry carries the id of entry k, the lookup returns exactly entry k, as Array find returns the first match |
| Menu.LookupById | constants.ts:11-30 | since the catalogue lists ids 1 to 18 in order, choosing id k + 1 finds entry k |
| OrderPage.Order.constructor | Order.tsx:39-62 | the page starts with the initial state slots (empty cart, empty text fields, no busy flag, no notification), with the mount effect that sets the default pickup time folded in, so the pickup time is the given clock default |
| OrderPage.Order.SetCustomerName | Order.tsx:230 | the name input overwrites the name slot only |
| OrderPage.Order.SetCustomerPhone | Order.tsx:234 | the phone input overwrites the phone slot only |
| OrderPage.Order.SetCustomerLineId | Order.tsx:249 | the messaging-id input overwrites its slot only |
| OrderPage.Order.SetPickupTime | Order.tsx:253 | the pickup input overwrites its slot only |
| OrderPage.Order.SetOrderNotes | Order.tsx:292 | the notes input overwrites its slot only |
| OrderPage.Order.AddItem | Order.tsx:75-87 | the cart becomes the add of the item, the invariant is kept, and a success notification names the item |
| OrderPage.Order.SelectMenuItem | Order.tsx:89-102 | an empty or unknown choice changes nothing; a known one adds that catalogue entry |
| OrderPage.Order.UpdateQuantity | Order.tsx:104-119 | the cart becomes the update of the old cart, the invariant is kept, and nothing else changes |
| OrderPage.Order.RemoveItem | Order.tsx:121-123 | the cart becomes the old cart without the id, the invariant is kept, and nothing else changes |
| OrderPage.Order.DismissNotification | Order.tsx:64-69 | the auto-dismiss clears the single notification slot |
| OrderPage.Order.ResetForm | Order.tsx:140-147 | the cart becomes empty, name, phone, messaging id and notes become empty strings, and the pickup time becomes the given default; busy flag and notification are untouched |
| OrderPage.Order.Submit | Order.tsx:149-190 | the outcome is the guard chain on the current form and cart, and an accepted payload carries the memoised cart total; a refusal only shows its error; an accepted send sets the busy flag; a throwing request clears the flag, shows the failure and keeps cart and form |
| OrderPage.Order.CompleteSubmission | Order.tsx:179-184 | the busy flag goes off, a success notification carries the snapshot's pickup time and total, and the form and cart are reset |
| Menu.ItemsWellFormed | constants.ts:11-30 | the catalogue has 18 entries with ids 1 to 18 in order, hence unique, and no negative price |
| Menu.SampleCart | constants.ts:12-14 | adding item 1 twice and item 3 once gives two lines, quantities 2 and 1, and a total of 135 |

## Left out

- The request itself: the POST in no-cors mode, its headers and the JSON serialisation of the body. It is network I/O whose response cannot be read. Its only observable outcome, sent or thrown, is the `Transport` parameter of `Submit`.
- The timers: the 2-second simulated processing delay, the 3-second notification expiry and the 2-second "copied" badge. Their effects are the separate methods `CompleteSubmission` and `DismissNotification`. When those run is not modelled.
- The clock-derived default pickup time (now plus 30 minutes, local time) and the ISO submission timestamp. They depend on clock, time zone and locale, so they are parameters.
- Notification text: the Chinese messages and the locale formatting of the pickup time in the success message. A notification is a `Message` tag with its data and a kind.
- The clipboard copy of the shop's messaging id and its `isCopied` flag. It is a browser API.
- The `parseInt` of the selector's value and the reset of the selector to its placeholder. The choice is an `Option<int>`, so an empty or unparseable value is `None`.
- All rendering, including the notification banner, the cart rows and the submit button's `disabled` condition (total 0 or busy). `Submit` therefore has no busy guard, just as the handler has none.
- The landing page, the query-parameter routing and the configuration URLs. They contain no cart or submit logic.
- JavaScript numbers are floating point; prices, ids, quantities and deltas are modelled as unbounded integers. Rounding and non-integer deltas are not modelled.
- The `console.error` logging when the clipboard copy fails or the request throws. It is diagnostic output with no effect on the page's state.
- React's batching of state updates. Each handler is modelled as one atomic step on the class's fields.
