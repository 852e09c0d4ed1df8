# Checkout screen model

A Dafny model of the checkout screen of a React storefront (`Checkout`
component). The screen reads the cart from the cart store and computes the
order totals (line totals summed, 10% tax, grand total). It holds a
customer form (name, email, address) and a payment-method radio group
(credit card, PayPal, cash on delivery). It has two ways to commit an order:

- the Pay Now submission, shown for PayPal and cash on delivery, runs a
  presence check and an email-pattern check and returns early on failure;
- the card payment widget's success callback commits directly.

Committing records the purchase (the form, the cart as it was, the total
and a timestamp), clears the cart, shows a success toast and navigates to
`/thank-you`. With an empty cart the screen shows only an empty-cart notice.

Three modules:

- `Totals` (`totals.dfy`): the `reduce` fold as a left fold `Fold`, a
  reference sum `Sum`, and `ComputeTotals`.
- `Email` (`email.dfy`): the regular expression `^[^\s@]+@[^\s@]+\.[^\s@]+$`
  as the predicate `ValidateEmail`, which says the string splits as
  `A@B.C` with three non-empty runs of `[^\s@]`. It is proved equal to an
  independent description, `EmailShape`: no whitespace, a single `@`, a
  non-empty local part, and a `.` inside the domain.
- `Checkout` (`checkout.dfy`): the form, the submission checks, the
  rendered view and the `Session` class. The library calls (store
  dispatches, toast, router) become entries appended to the `effects` log.
  The stores' contents are not modelled, apart from the cart the screen reads.

`Session.Deliver` is the event loop handing one UI event to whatever the
screen currently renders. An event whose widget is not rendered has no
handler, so it changes nothing. This is how the model states the
empty-cart guard and the choice of completion control that depends on the
payment method.

What the code does, and the model with it:

- The presence check is `!form.x` on strings. Only the empty string
  fails, and a field of blanks passes (`BlankNameAndAddressPass`).
- Each handler works on the form, cart items and total of the render that
  created it (`Rendered`). The commit point has no guard against a second
  call, and the model adds none. `RepeatedOrderSuccess` shows that one
  render's callback, fired twice by the card widget, records two orders
  with the same items and total. Nothing in the code makes an order
  unique per session.
- The card path commits without looking at the form, so even the empty
  form gets through (`CardPaymentSkipsValidation`).
- Nothing rolls back if the cart clear happens without the purchase being
  stored, or the other way round. The log records the four effects in
  source order.

## Model

| member | source | states |
|---|---|---|
| `Totals.Fold` | src/components/Checkout.jsx:28-31 | the `reduce` over the cart items with step `sum + item.price * item.quantity`, folded left from the start value |
| `Totals.FoldIsSum` | src/components/Checkout.jsx:28-31 | the left fold of `sum + price * quantity` from any start value equals the start value plus the sum of the line totals |
| `Totals.SumAppend` | src/components/Checkout.jsx:28-31 | the subtotal of a concatenated cart is the sum of the parts' subtotals |
| `Totals.SumNonNegative` | src/components/Checkout.jsx:28-31 | a cart of items with non-negative price and quantity at least 1 has a non-negative subtotal |
| `Totals.ComputeTotals` | src/components/Checkout.jsx:28-33 | subtotal is the sum of line totals; total is 1.1 times the subtotal and tax is their difference; for well-formed carts 0 <= tax and 0 <= subtotal <= total; the empty cart gives all zeros |
| `Totals.TotalAfterAdding` | src/components/Checkout.jsx:28-33 | adding one item raises the total by 1.1 times that item's line total |
| `Totals.SampleCartTotals` | src/components/Checkout.jsx:28-33 | one item at price 10 and quantity 2 gives subtotal 20, tax 2, total 22 |
| `Email.IsSpace` | src/components/Checkout.jsx:40 | the characters of the pattern's `\s` class |
| `Email.ValidateEmail` | src/components/Checkout.jsx:40 | the pattern tested against the whole string: it splits at a literal `@` and a later literal `.` into three non-empty runs of `[^\s@]` |
| `Email.ValidateEmailIsShape` | src/components/Checkout.jsx:40 | the pattern matches exactly when the string has no whitespace, a single `@` after a non-empty local part, and a domain with a `.` that has a character on each side |
| `Email.AcceptsSimpleAddress` | src/components/Checkout.jsx:40 | `ann@x.com` is accepted |
| `Email.AcceptsDoubleDot` | src/components/Checkout.jsx:40 | `a@b..c` is accepted, because the domain runs may themselves contain dots |
| `Email.RejectsMissingDot` | src/components/Checkout.jsx:40 | `a@b` is rejected |
| `Email.RejectsMissingAtSign` | src/components/Checkout.jsx:40 | `a.com` is rejected |
| `Email.RejectsWhitespace` | src/components/Checkout.jsx:40 | `a b@c.com` is rejected |
| `Email.RejectsLeadingDomainDot` | src/components/Checkout.jsx:40 | `a@.com` is rejected: a dot right after the `@` has nothing before it |
| `Checkout.WithField` | src/components/Checkout.jsx:35-38 | the edited field holds the new value and every other field keeps its old value |
| `Checkout.Present` | src/components/Checkout.jsx:58 | `!form.x` is false exactly for a non-empty string; nothing is trimmed |
| `Checkout.AllPresent` | src/components/Checkout.jsx:58 | none of `!form.name`, `!form.email`, `!form.address` holds, so the first early return is not taken |
| `Checkout.CheckForm` | src/components/Checkout.jsx:58-65 | the submission passes exactly when all three fields are non-empty and the email matches; it is refused as a missing field exactly when some field is empty; it is refused as an invalid email exactly when all fields are present and the email does not match |
| `Checkout.CheckFormByShape` | src/components/Checkout.jsx:58-65 | the same verdicts stated through the email's shape rather than the pattern |
| `Checkout.BlankNameAndAddressPass` | src/components/Checkout.jsx:58 | a name and an address made only of spaces pass the presence check |
| `Checkout.EmptyEmailIsMissing` | src/components/Checkout.jsx:58-63 | an empty email is always reported as a missing field, never as an invalid email |
| `Checkout.ViewOf` | src/components/Checkout.jsx:69-179 | the empty-cart view is shown exactly when the cart is empty; otherwise exactly one completion control is rendered, the card widget exactly when the method is credit card; the summary total is 1.1 times the subtotal |
| `Checkout.Reaches` | src/components/Checkout.jsx:69-179 | the guards on what is rendered: nothing on the empty view (line 69), edits and radio selections on the checkout page, the widget's callback only under `paymentMethod === "creditCard"` (line 159), the Pay Now submit only otherwise (line 171) |
| `Checkout.CommitsOnlyThroughCompletionControls` | src/components/Checkout.jsx:159-179 | no event commits on an empty cart; with the card method only the widget's callback commits; with the other methods only a submission whose form passes both checks commits; on a non-empty cart the card callback always commits |
| `Checkout.Purchases` | src/components/Checkout.jsx:43-50 | every recorded order comes from a purchase entry of the log, and every purchase entry's order is recorded (membership in both directions; the order of entries is kept, as `PurchasesAppend` shows) |
| `Checkout.PurchasesAppend` | src/components/Checkout.jsx:43-50 | the orders recorded in a concatenated log are those of the first part followed by those of the second |
| `Checkout.CommitEffects` | src/components/Checkout.jsx:42-54 | one commit from a render records exactly one order (the captured form, cart items and total, and the timestamp); its four effects are, in this order, that purchase, the cart clear, the success toast and the navigation to `/thank-you` |
| `Checkout.Session.constructor` | src/components/Checkout.jsx:18-26 | the session starts with an empty form, the credit-card method, the store's cart and no effects |
| `Checkout.Session.HandleChange` | src/components/Checkout.jsx:35-38 | only the form changes; the edited field takes the value and the others keep theirs |
| `Checkout.Session.SelectPaymentMethod` | src/components/Checkout.jsx:128-156 | only the payment method changes, and it becomes the chosen option |
| `Checkout.Session.HandleOrderSuccess` | src/components/Checkout.jsx:42-54 | for the render the callback closed over: the cart becomes empty and the log grows by the commit's four effects, so exactly one new order is added, built from the captured form, cart items and total; form and payment method are untouched |
| `Checkout.Session.HandleManualSubmit` | src/components/Checkout.jsx:56-67 | checks the captured form: a refused form adds exactly one error toast with that check's message and leaves the cart and the form as they were; a form that passes both checks commits once, with the captured cart items and total |
| `Checkout.Session.Deliver` | src/components/Checkout.jsx:69-179 | an event without a rendered widget changes nothing, in particular on an empty cart; the payment method changes only by a radio selection; at most one order is added per event, and one is added exactly when the event commits; a refused submission adds only its error toast |
| `Checkout.CardPaymentSkipsValidation` | src/components/Checkout.jsx:159-168 | on a fresh screen with a non-empty cart, the card widget's callback records an order for the empty form |
| `Checkout.CardPathIgnoresSubmit` | src/components/Checkout.jsx:171-179 | while the card method is selected, a submit records nothing and leaves the cart as it was, whatever the form holds |
| `Checkout.RepeatedOrderSuccess` | src/components/Checkout.jsx:42-54 | one render's commit callback called twice records two orders with the same captured items and total, and leaves the cart empty |
| `Checkout.WidgetCheckout` | src/components/Checkout.jsx:28-66 | the sample checkout (Widget at 10 times 2, a complete form, PayPal) logs one purchase of total 22, the cart clear, one success toast and the navigation, and leaves the cart empty |

## Left out

- Totals.ComputeTotals: amounts are exact reals, so the contract does not model IEEE-754 rounding in `price * quantity`, `subtotal * 0.1` or the sums.
- The `toFixed(2)` rendering of amounts and all layout markup are presentation only.
- The card payment widget (`loadStripe`, `Elements`, `StripePaymentForm`) is not part of this model. Its success callback appears only as the external event `PaymentSucceeded`, which is delivered while the widget is rendered. Failures stay inside the widget and never reach the screen.
- A callback that fires after the widget is unmounted (the method switched away, or the page left) is not modelled. `Deliver` always hands an event to the handlers of the latest render; only `RepeatedOrderSuccess` calls an older render's callback.
- Checkout.RepeatedOrderSuccess: shows a callback fired twice with the snapshot of one render. It does not model every interleaving of renders and stale callbacks.
- Checkout.CardPathIgnoresSubmit: assumes nothing inside the card widget submits the surrounding form. The widget is rendered inside the form, and its source is not part of this model. Without this assumption, a submit from inside the widget would reach the submit handler, which never looks at the payment method. It would then commit an order for a complete form with no payment.
- The store internals behind `setPurchases` and `clearCart` are not part of this model. The log records the calls only, without assuming whether `setPurchases` appends or replaces.
- The clock: `new Date().toISOString()` becomes the `now` parameter.
- The browser's own constraint validation from the `required` and `type="email"` attributes is browser behaviour and is not modelled. The submit handler is modelled as reachable with any form. Likewise `e.preventDefault()`.
- The change handler is modelled for the three inputs wired to it. A `name` attribute outside them, which would add a new key to the form object, is not modelled.
- JavaScript regular expressions without the `u` flag read UTF-16 code units; the model reads Unicode scalar values. Whitespace is the `\s` set: the WhiteSpace and LineTerminator code points of sections 12.2 and 12.3 of ECMA-262.
- Unmounting on navigation is not modelled: the session keeps receiving events after `/thank-you`, but with the cleared cart every event is ignored.
