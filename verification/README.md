# Tikiti ticket storefront: selection and checkout, in Dafny

This project models the two pages of the Tikiti storefront that hold real
logic.

- **Ticket selection.** The page looks an event up by id in a fixed
  catalogue and keeps a per-session map from ticket-category id to the
  requested quantity. Every update clamps the quantity at 0, and the
  Purchase button adds one ticket. The page shows a grand total and, on
  Continue, turns the map into a cart of the non-zero selections. An empty
  selection is refused.
- **Checkout.** The page shows the cart's subtotal and keeps a billing
  record that changes one field at a time. Before submitting it checks that
  name, email and phone are filled in and, for M-Pesa, that the phone
  matches `^(254|0)[0-9]{9}$`. It runs the mocked order submission under a
  `processing` flag that also disables the submit button.

Layout:

- `prelude.dfy` (module `Prelude`): an `Option` type, `Array.prototype.find` as `Find`, and `Distinct`.
- `types.dfy` (module `Types`): the records of `src/types/event.ts`. Payment method and order status are datatypes with two and three constructors.
- `ticket_selection.dfy` (module `TicketSelection`):
  - pure part: the catalogue and its lookup, `SetQuantity`, `Total`, `BuildCart` and `Continue`;
  - stateful part: the class `SelectionPage` over `event`, `quantities`, `loading` and a redirect flag.
- `checkout.dfy` (module `Checkout`):
  - pure part: `Subtotal`, `WithField`, the phone pattern and `Validate`;
  - stateful part: the class `CheckoutPage` over the cart, `billing`, `processing` and a redirect flag.
- `cart_handoff.dfy` (module `CartHandoff`): proves that the subtotal checkout computes for the handed-over cart equals the grand total the selection page showed.

Modelling choices:

- Prices, quantities and totals are integers.
- `Object.entries(quantities)` yields the map's keys in an order the model
  does not fix. `BuildCart` and `Continue` take that order as a parameter
  `keys`, which must list every key of the map exactly once. All cart
  properties are stated by membership and count, not by position.
- Each `reduce` is a left fold, written as recursion on the last element.
- `handleCompleteOrder` is split at its `await`:
  - `BeginOrder` covers the click: the two checks and raising `processing`;
  - `FinishOrder` covers the resumption: `try`/`catch`/`finally`, which lowers `processing`.

  Between the two, the button is disabled. A click in that state is
  `Ignored`.

Two facts about the code that shape the model:

- Cart lines come in the map's key order, not the event's category order,
  because the cart is built from `Object.entries(quantities)`
  (`src/pages/TicketSelection.tsx:125`).
- The submit handler does not check that the cart is non-empty
  (`src/pages/Checkout.tsx:51-72`). Only the mount effect sends a session
  without a cart or event home (`CheckoutPage.CheckSession`).

## Model

| member | source | states |
|---|---|---|
| `Prelude.Find` | src/pages/TicketSelection.tsx:128 | returns nothing iff no element satisfies the predicate; otherwise returns an element that satisfies it, and no earlier element does |
| `TicketSelection.FindEvent` | src/pages/TicketSelection.tsx:100 | not found iff no event has the id; otherwise returns the first event with that id |
| `TicketSelection.MockEventLookup` | src/pages/TicketSelection.tsx:11-52 | ids "1" and "2" find the two mock events; every other id is not found, so the page redirects |
| `TicketSelection.MockCatalogueWellFormed` | src/pages/TicketSelection.tsx:25-30 | the catalogue's category ids are unique and its prices non-negative, so it meets what `TotalAfterQuantityChange` and `CartHandoff.HandoffKeepsTotal` assume of an event |
| `TicketSelection.PriceOf` | src/pages/TicketSelection.tsx:128-133 | the price of the first category with that id; 0 when there is no event or no such category |
| `TicketSelection.PriceOfUnique` | src/pages/TicketSelection.tsx:128-133 | with unique category ids, looking up a category's id gives that category's own price |
| `TicketSelection.SetQuantity` | src/pages/TicketSelection.tsx:109-114 | the stored value is `max(0, q)`: never negative, and `q` itself when `q >= 0`; the key set gains only the id; every other key keeps its value; all values stay non-negative |
| `TicketSelection.SetQuantityIdempotent` | src/pages/TicketSelection.tsx:110-113 | applying the same change twice gives the same map as applying it once |
| `TicketSelection.CategoriesTotalNonNegative` | src/pages/TicketSelection.tsx:118-121 | with non-negative prices and quantities, the fold over the categories is non-negative |
| `TicketSelection.TotalNonNegative` | src/pages/TicketSelection.tsx:116-122 | the total is 0 without an event and never negative when prices and quantities are non-negative |
| `TicketSelection.TotalAfterQuantityChange` | src/pages/TicketSelection.tsx:109-122 | with unique category ids, one quantity change moves the total by that category's price times the change in its quantity; an id that names no category leaves the total unchanged |
| `TicketSelection.KenyaVsGambiaExample` | src/pages/TicketSelection.tsx:25-29 | Regular x2 plus Silver x1 of "Kenya vs Gambia" totals 1100 |
| `TicketSelection.KenyaVsGambiaCart` | src/pages/TicketSelection.tsx:125-135 | the same selection, with keys "1" then "2", builds exactly two lines: Regular x2 at 300 and Silver x1 at 500, both for event "1" |
| `TicketSelection.BuildCart` | src/pages/TicketSelection.tsx:125-135 | each item comes from a key of the map and carries that key, its quantity (which is positive), the page's event id and the price looked up for the key; there are no more items than keys |
| `TicketSelection.BuildCartCovers` | src/pages/TicketSelection.tsx:126 | every key with a positive quantity gets an item |
| `TicketSelection.BuildCartDistinct` | src/pages/TicketSelection.tsx:125-135 | when each key is enumerated once, no two items share a category id, so each positive entry gets exactly one item |
| `TicketSelection.CartMatchesSelection` | src/pages/TicketSelection.tsx:125-135 | a category id appears in the cart iff the map holds it with a quantity above 0 |
| `TicketSelection.NegativeQuantityExcluded` | src/pages/TicketSelection.tsx:109-135 | after a quantity is set below 0, the next cart has no item for that category |
| `TicketSelection.Continue` | src/pages/TicketSelection.tsx:124-149 | the selection is refused iff no entry has a quantity above 0; otherwise the handed-off cart is non-empty, every item has a positive quantity, and the event travels with it |
| `TicketSelection.SelectionPage.constructor` | src/pages/TicketSelection.tsx:54-60 | the page opens with no event, an empty quantities map, and loading on |
| `TicketSelection.SelectionPage.LoadEvent` | src/pages/TicketSelection.tsx:99-107 | the event is the lookup result; a failed lookup redirects home; loading ends either way |
| `TicketSelection.SelectionPage.HandleQuantityChange` | src/pages/TicketSelection.tsx:109-114 | the new map is `SetQuantity` of the old one, and no quantity becomes negative |
| `TicketSelection.SelectionPage.Purchase` | src/pages/TicketSelection.tsx:199-204 | the category's quantity becomes its current value (0 if absent) plus exactly 1; nothing else changes |
| `TicketSelection.SelectionPage.CalculateTotal` | src/pages/TicketSelection.tsx:116-122 | 0 without an event; non-negative when prices are non-negative, because the page keeps every quantity non-negative |
| `TicketSelection.SelectionPage.HandleContinue` | src/pages/TicketSelection.tsx:124-150 | the handler's outcome on the page's state is `Continue` of that state, and the page's state does not change |
| `Checkout.ItemsTotalAppend` | src/pages/Checkout.tsx:40-42 | the subtotal of two carts placed end to end is the sum of their subtotals |
| `Checkout.ItemsTotalNonNegative` | src/pages/Checkout.tsx:41 | items with non-negative prices and quantities give a non-negative fold |
| `Checkout.SubtotalNonNegative` | src/pages/Checkout.tsx:40-42 | the subtotal is 0 without a cart and never negative for non-negative prices and quantities |
| `Checkout.InitialBilling` | src/pages/Checkout.tsx:20-25 | the form starts with empty name, email and phone, and M-Pesa selected |
| `Checkout.WithField` | src/pages/Checkout.tsx:44-49 | the edited field takes the new value; the other three fields keep theirs |
| `Checkout.EditsCommuteOrOverride` | src/pages/Checkout.tsx:44-49 | edits to different fields commute; of two edits to the same field, the later one wins |
| `Checkout.DigitsToEndIff` | src/pages/Checkout.tsx:63 | `[0-9]{n}$` matches iff the rest of the input is exactly `n` characters, all digits |
| `Checkout.MpesaPhoneShape` | src/pages/Checkout.tsx:63 | the pattern accepts exactly the all-digit strings of length 12 that start with "254" and of length 10 that start with "0" |
| `Checkout.SubscriberDigits` | src/pages/Checkout.tsx:63 | "712345678" is a nine-digit subscriber number |
| `Checkout.MpesaPhoneAcceptsExamples` | src/pages/Checkout.tsx:63 | "0712345678" and "254712345678" match |
| `Checkout.MpesaPhoneRejectsExamples` | src/pages/Checkout.tsx:63 | "12345", "+254712345678" and "07123456789" do not match |
| `Checkout.Validate` | src/pages/Checkout.tsx:52-70 | a missing field is reported iff name, email or phone is empty; an invalid phone iff all are filled, M-Pesa is chosen and the phone fails the pattern; an accepted M-Pesa phone is all digits of length 10 or 12; with Card there is no phone-format check |
| `Checkout.CheckoutPage.constructor` | src/pages/Checkout.tsx:18-27 | the page keeps the cart and event it was given, starts with the empty billing record and `processing` false |
| `Checkout.CheckoutPage.CheckSession` | src/pages/Checkout.tsx:29-38 | a session without a cart or without an event is sent home |
| `Checkout.CheckoutPage.CalculateSubtotal` | src/pages/Checkout.tsx:40-42 | 0 when there is no cart or the cart is empty; never negative when every item's price and quantity are non-negative |
| `Checkout.CheckoutPage.HandleInputChange` | src/pages/Checkout.tsx:44-49 | the billing record becomes `WithField` of the old one; `processing` and the cart do not change |
| `Checkout.CheckoutPage.HandleRemove` | src/pages/Checkout.tsx:192-197 | the Remove button leaves the cart unchanged |
| `Checkout.CheckoutPage.BeginOrder` | src/pages/Checkout.tsx:51-72 | while `processing` is on, a click is ignored; otherwise a failed check rejects it with its reason and leaves `processing` off, and `processing` is raised only when both checks pass |
| `Checkout.CheckoutPage.FinishOrder` | src/pages/Checkout.tsx:74-136 | the in-flight order ends Completed, or Failed when the awaited work throws; `processing` is off afterwards either way |
| `Checkout.CheckoutPage.HandleCompleteOrder` | src/pages/Checkout.tsx:51-137 | a whole run of the handler leaves `processing` off; an order reaches a final status iff both checks pass |
| `CartHandoff.CartTotalIsKeySum` | src/pages/TicketSelection.tsx:125-135 | the built cart's subtotal is the sum of what each enumerated key contributes |
| `CartHandoff.CategoriesTotalIsKeySum` | src/pages/TicketSelection.tsx:116-122 | with unique ids and non-negative quantities, the grand total is the sum of what each category id contributes |
| `CartHandoff.KeySumSameSupport` | src/pages/TicketSelection.tsx:125 | two duplicate-free key sequences that agree on the keys with a non-zero contribution have the same sum, whatever their order |
| `CartHandoff.HandoffKeepsTotal` | src/pages/TicketSelection.tsx:116-149 | suppose category ids are unique and quantities are non-negative. Then the cart handed to checkout has the shown grand total as its subtotal, and a refused selection has total 0. A selected id that names no category is priced 0, so it adds nothing to either side |

## Left out

- Rendering, styling, the header menu (`src/components/Header.tsx`), the event cards (`src/components/EventCard.tsx`) and the event list page (`src/pages/Events.tsx`): they hold no logic.
- Toasts, `navigate(...)`, `window.scrollTo` and `setTimeout`. This includes the auto-scroll effect at `src/pages/TicketSelection.tsx:63-73` and the delays at `src/pages/Checkout.tsx:109,123`. A redirect home from a failed event lookup or a missing checkout session is modelled as a `redirectedHome` flag. The delayed `navigate('/')` after a successful order (`src/pages/Checkout.tsx:123-125`) is left out with its `setTimeout`, and `CheckoutPage.FinishOrder` does not raise the flag. The move to checkout is modelled as the `ToCheckout` result.
- The commented-out database reads and writes and the M-Pesa push request (`src/pages/Checkout.tsx:75-106`, `src/pages/TicketSelection.tsx:76-97`). They are not implemented in the source. The mocked payment is reduced to one outcome. `FinishOrder` takes a `paymentError` flag for the `catch` branch, and with the mock that flag is always false.
- `Order` records are declared but never built, as in the source.
- JavaScript floating-point numbers and `toLocaleString`: prices and quantities are integers.
- Input parsing: `parseInt(...) || 0` at `src/pages/TicketSelection.tsx:196` is taken as already done. The quantity arrives as an `int`, with unparsable input mapped to 0.
- The engine's rules for `Object.entries` order, such as integer-like keys coming first in ascending order. The order is a parameter.
- React's asynchronous state updates and re-rendering: each state update takes effect at once.
- The checkout page's Update Cart and Continue Shopping buttons (`src/pages/Checkout.tsx:139-142,213-226`): navigation only.
- The `max={category.available}` hint on the quantity input: the source enforces no upper bound, and neither does the model.
- `Checkout.FieldEdit`: the payment-method edit carries a `PaymentMethod`. The select offers only "M-Pesa" and a disabled "Card", so no other string reaches that field.
- The render guards that gate the selection page's handlers: the quantity inputs and Purchase buttons appear only once an event is loaded (`src/pages/TicketSelection.tsx:152-158`), and the Continue Shopping button only while `calculateTotal() > 0` (`src/pages/TicketSelection.tsx:218`). `SelectionPage.HandleQuantityChange`, `SelectionPage.Purchase` and `SelectionPage.HandleContinue` may run in any state, which covers more than the page allows. By the second `ensures` of `CartHandoff.HandoffKeepsTotal`, with the catalogue's non-negative prices (`TicketSelection.MockCatalogueWellFormed`) a positive total never meets the "No tickets selected" branch, so the UI cannot reach it. The checkout page has a guard of the same kind: without a cart and an event it renders no form and no buttons (`src/pages/Checkout.tsx:144-150`). `CheckoutPage.HandleInputChange`, `CheckoutPage.BeginOrder` and `CheckoutPage.HandleCompleteOrder` may still run when `cartItems` or `event` is `None`. This too covers more than the page allows and loses no behaviour.
