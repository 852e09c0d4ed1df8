/** The checkout screen's session: the customer form, the payment-method
    radio group, the cart read from the cart store, and the handlers that
    validate a manual submission and commit an order. The cart store, the
    order store, the toast channel and the router are reached only through
    an append-only log of effects. */
module Checkout {
  import opened Totals
  import opened Email

  datatype Option<T> = None | Some(value: T)

  /** The opaque ISO-8601 string the clock gives at commit time. */
  type Timestamp = string

  datatype Form = Form(name: string, email: string, address: string)

  const EmptyForm: Form := Form("", "", "")

  /** The three inputs wired to the change handler, by their `name` attribute. */
  datatype Field = NameField | EmailField | AddressField

  datatype PaymentMethod = CreditCard | PayPal | CashOnDelivery

  /** The record handed to the order store. */
  datatype Order = Order(customer: Form, orderItems: seq<CartItem>, total: real, date: Timestamp)

  datatype ToastKind = Success | Error

  /** One call into an external collaborator, in the order it was made. */
  datatype Effect =
    | SetPurchases(order: Order)
    | ClearCart
    | Toast(kind: ToastKind, message: string)
    | Navigate(path: string)

  const MissingFieldsMessage: string := "Please fill in all fields"
  const InvalidEmailMessage: string := "Please enter a valid email address"
  const SuccessMessage: string := "Order placed successfully!"
  const ThankYouPath: string := "/thank-you"

  function FieldValue(f: Form, field: Field): string
  {
    match field
    case NameField => f.name
    case EmailField => f.email
    case AddressField => f.address
  }

  /** The form after `{ ...form, [name]: value }`. */
  function WithField(f: Form, field: Field, value: string): (r: Form)
    ensures FieldValue(r, field) == value
    ensures forall other :: other != field ==> FieldValue(r, other) == FieldValue(f, other)
  {
    match field
    case NameField => f.(name := value)
    case EmailField => f.(email := value)
    case AddressField => f.(address := value)
  }

  /** `!form.x` on a string is true only for the empty string; nothing is trimmed. */
  predicate Present(s: string)
  {
    s != ""
  }

  predicate AllPresent(f: Form)
  {
    Present(f.name) && Present(f.email) && Present(f.address)
  }

  datatype Rejection = MissingField | InvalidEmail

  function RejectionMessage(r: Rejection): string
  {
    match r
    case MissingField => MissingFieldsMessage
    case InvalidEmail => InvalidEmailMessage
  }

  /** The two checks of a manual submission, in order: presence first, then the email pattern. */
  function CheckForm(f: Form): (r: Option<Rejection>)
    ensures r == None <==> AllPresent(f) && ValidateEmail(f.email)
    ensures r == Some(MissingField) <==> f.name == "" || f.email == "" || f.address == ""
    ensures r == Some(InvalidEmail) <==> AllPresent(f) && !ValidateEmail(f.email)
  {
    if !AllPresent(f) then Some(MissingField)
    else if !ValidateEmail(f.email) then Some(InvalidEmail)
    else None
  }

  /** The submission checks in terms of the shape of the email rather than
      the pattern: a filled-in form is refused as invalid exactly when its
      email has whitespace, no single `@`, an empty local part or no inner
      `.` in the domain. */
  lemma CheckFormByShape(f: Form)
    ensures CheckForm(f) == None <==> AllPresent(f) && EmailShape(f.email)
    ensures CheckForm(f) == Some(InvalidEmail) <==> AllPresent(f) && !EmailShape(f.email)
  {
    ValidateEmailIsShape(f.email);
  }

  /** A completely filled-in form passes even when its name and address are
      only blanks, since nothing is trimmed. */
  lemma BlankNameAndAddressPass()
    ensures CheckForm(Form(" ", "ann@x.com", "   ")) == None
  {
    AcceptsSimpleAddress();
  }

  /** An empty email is reported as a missing field, never as an invalid address. */
  lemma EmptyEmailIsMissing(f: Form)
    requires f.email == ""
    ensures CheckForm(f) == Some(MissingField)
  {
  }

  /** What the screen renders: the empty-cart notice, or the checkout page
      with exactly one completion control and the order summary. */
  datatype View =
    | EmptyCartView
    | CheckoutView(cardWidget: bool, payNowButton: bool, summary: OrderTotals)

  function ViewOf(cart: seq<CartItem>, pm: PaymentMethod): (v: View)
    ensures v.EmptyCartView? <==> |cart| == 0
    ensures v.CheckoutView? ==> v.cardWidget != v.payNowButton
    ensures v.CheckoutView? ==> (v.cardWidget <==> pm == CreditCard)
    ensures v.CheckoutView? ==> v.summary.total == 1.1 * Sum(cart)
  {
    if |cart| == 0 then EmptyCartView
    else CheckoutView(pm == CreditCard, pm != CreditCard, ComputeTotals(cart))
  }

  /** An event the event loop may deliver to the screen. `PaymentSucceeded`
      is the card widget's success callback, an external and asynchronous event. */
  datatype UiEvent =
    | Edit(field: Field, value: string)
    | Select(choice: PaymentMethod)
    | Submit
    | PaymentSucceeded

  /** Whether the rendered view has a widget that can raise `ev`. */
  predicate Reaches(v: View, ev: UiEvent)
  {
    match v
    case EmptyCartView => false
    case CheckoutView(card, payNow, _) =>
      match ev
      case Edit(_, _) => true
      case Select(_) => true
      case Submit => payNow
      case PaymentSucceeded => card
  }

  /** Whether delivering `ev` to the screen showing `v` with form `f` commits an order. */
  predicate Commits(v: View, f: Form, ev: UiEvent)
  {
    Reaches(v, ev) && (ev.PaymentSucceeded? || (ev.Submit? && CheckForm(f) == None))
  }

  /** Whether delivering `ev` to the screen showing `v` with form `f` ends in an error toast. */
  predicate Rejects(v: View, f: Form, ev: UiEvent)
  {
    Reaches(v, ev) && ev.Submit? && CheckForm(f).Some?
  }

  /** On every view and form, only the card widget's callback or a Pay Now
      submission that passes the checks commits; nothing commits on the empty-cart view. */
  lemma CommitsOnlyThroughCompletionControls(cart: seq<CartItem>, pm: PaymentMethod, f: Form, ev: UiEvent)
    ensures Commits(ViewOf(cart, pm), f, ev) ==> |cart| > 0
    ensures Commits(ViewOf(cart, pm), f, ev) && pm == CreditCard ==> ev == PaymentSucceeded
    ensures Commits(ViewOf(cart, pm), f, ev) && pm != CreditCard ==>
              ev == Submit && AllPresent(f) && EmailShape(f.email)
    ensures |cart| > 0 && pm == CreditCard ==> Commits(ViewOf(cart, pm), f, PaymentSucceeded)
  {
    CheckFormByShape(f);
  }

  /** The orders recorded in an effects log, oldest first. */
  function Purchases(log: seq<Effect>): (r: seq<Order>)
    ensures |r| <= |log|
    ensures forall o :: o in r ==> SetPurchases(o) in log
    ensures forall i :: 0 <= i < |log| && log[i].SetPurchases? ==> log[i].order in r
    decreases |log|
  {
    if log == [] then []
    else
      var rest := Purchases(log[1..]);
      assert forall i :: 1 <= i < |log| ==> log[i] == log[1..][i - 1];
      (if log[0].SetPurchases? then [log[0].order] else []) + rest
  }

  lemma {:induction false} PurchasesAppend(a: seq<Effect>, b: seq<Effect>)
    ensures Purchases(a + b) == Purchases(a) + Purchases(b)
    decreases |a|
  {
    if a == [] {
      assert a + b == b;
    } else {
      assert (a + b)[0] == a[0] && (a + b)[1..] == a[1..] + b;
      PurchasesAppend(a[1..], b);
    }
  }

  /** What the handlers of one render close over: the form state, the cart
      items read from the store, and the total computed from them. */
  datatype Rendered = Rendered(form: Form, cartItems: seq<CartItem>, total: real)

  /** The effects of one commit from the render `r`: the order, the cart
      clear, the success toast and the navigation, in that order. */
  function CommitEffects(r: Rendered, now: Timestamp): (e: seq<Effect>)
    ensures Purchases(e) == [Order(r.form, r.cartItems, r.total, now)]
    ensures |e| == 4
    ensures e[0] == SetPurchases(Order(r.form, r.cartItems, r.total, now)) && e[1] == ClearCart
    ensures e[2] == Toast(Success, SuccessMessage) && e[3] == Navigate(ThankYouPath)
  {
    var e := [SetPurchases(Order(r.form, r.cartItems, r.total, now)),
              ClearCart,
              Toast(Success, SuccessMessage),
              Navigate(ThankYouPath)];
    assert e[1..] == [ClearCart, Toast(Success, SuccessMessage), Navigate(ThankYouPath)];
    assert e[1..][1..] == [Toast(Success, SuccessMessage), Navigate(ThankYouPath)];
    assert e[1..][1..][1..] == [Navigate(ThankYouPath)];
    assert e[1..][1..][1..][1..] == [];
    assert Purchases(e[1..][1..][1..]) == [];
    assert Purchases(e[1..][1..]) == [];
    assert Purchases(e[1..]) == [];
    e
  }

  class Session {
    var form: Form
    var paymentMethod: PaymentMethod
    /** The cart store's items, as the screen reads them. */
    var cart: seq<CartItem>
    var effects: seq<Effect>

    /** The screen's initial state over the cart store's current items. */
    constructor (items: seq<CartItem>)
      ensures form == EmptyForm && paymentMethod == CreditCard
      ensures cart == items && effects == []
    {
      form := EmptyForm;
      paymentMethod := CreditCard;
      cart := items;
      effects := [];
    }

    function View(): View
      reads this
    {
      ViewOf(cart, paymentMethod)
    }

    /** The values the current render hands to its handlers. */
    function Rendering(): Rendered
      reads this
    {
      Rendered(form, cart, ComputeTotals(cart).total)
    }

    /** Sets the edited field and leaves the other fields as they were. */
    method HandleChange(field: Field, value: string)
      modifies this`form
      ensures form == WithField(old(form), field, value)
      ensures FieldValue(form, field) == value
      ensures forall other :: other != field ==> FieldValue(form, other) == FieldValue(old(form), other)
    {
      form := WithField(form, field, value);
    }

    /** A radio button's change handler. */
    method SelectPaymentMethod(choice: PaymentMethod)
      modifies this`paymentMethod
      ensures paymentMethod == choice
    {
      paymentMethod := choice;
    }

    /** The commit point, as created by the render `r`. Records the order
        built from the form, the cart items and the total `r` captured, then
        clears the cart, shows the success toast and navigates. It neither
        re-validates nor guards against a second call. */
    method HandleOrderSuccess(r: Rendered, now: Timestamp)
      modifies this`cart, this`effects
      ensures cart == []
      ensures effects == old(effects) + CommitEffects(r, now)
      ensures Purchases(effects) == Purchases(old(effects)) + [Order(r.form, r.cartItems, r.total, now)]
    {
      var order := Order(r.form, r.cartItems, r.total, now);
      effects := effects + [SetPurchases(order)];
      effects := effects + [ClearCart];
      cart := [];
      effects := effects + [Toast(Success, SuccessMessage)];
      effects := effects + [Navigate(ThankYouPath)];
      PurchasesAppend(old(effects), CommitEffects(r, now));
    }

    /** The form's submit handler, as created by the render `r`: each failed
        check on the captured form shows one error toast and returns; only a
        form that passes both checks commits. */
    method HandleManualSubmit(r: Rendered, now: Timestamp)
      modifies this`cart, this`effects
      ensures CheckForm(r.form) == None ==>
                cart == [] && effects == old(effects) + CommitEffects(r, now)
      ensures CheckForm(r.form).Some? ==>
                cart == old(cart) && effects == old(effects) + [Toast(Error, RejectionMessage(CheckForm(r.form).value))]
      ensures Purchases(effects) == Purchases(old(effects)) +
                (if CheckForm(r.form) == None then [Order(r.form, r.cartItems, r.total, now)] else [])
    {
      if !AllPresent(r.form) {
        effects := effects + [Toast(Error, MissingFieldsMessage)];
        PurchasesAppend(old(effects), [Toast(Error, MissingFieldsMessage)]);
        return;
      }
      if !ValidateEmail(r.form.email) {
        effects := effects + [Toast(Error, InvalidEmailMessage)];
        PurchasesAppend(old(effects), [Toast(Error, InvalidEmailMessage)]);
        return;
      }
      HandleOrderSuccess(r, now);
    }

    /** The event loop delivering `ev` to the handlers of the latest render:
        an event whose widget is not rendered has no handler and changes nothing. */
    method Deliver(ev: UiEvent, now: Timestamp)
      modifies this
      ensures !Reaches(old(View()), ev) ==> unchanged(this)
      ensures |old(cart)| == 0 ==> unchanged(this)
      ensures paymentMethod == (if ev.Select? && Reaches(old(View()), ev) then ev.choice else old(paymentMethod))
      ensures form == (if ev.Edit? && Reaches(old(View()), ev) then WithField(old(form), ev.field, ev.value) else old(form))
      ensures Purchases(effects) == Purchases(old(effects)) +
                (if Commits(old(View()), old(form), ev) then [Order(old(form), old(cart), ComputeTotals(old(cart)).total, now)] else [])
      ensures Commits(old(View()), old(form), ev) ==>
                cart == [] && effects == old(effects) + CommitEffects(old(Rendering()), now)
      ensures Rejects(old(View()), old(form), ev) ==>
                cart == old(cart) && effects == old(effects) + [Toast(Error, RejectionMessage(CheckForm(old(form)).value))]
      ensures !Commits(old(View()), old(form), ev) && !Rejects(old(View()), old(form), ev) ==>
                cart == old(cart) && effects == old(effects)
    {
      if !Reaches(View(), ev) {
        return;
      }
      var rendered := Rendering();
      match ev
      case Edit(field, value) =>
        HandleChange(field, value);
      case Select(choice) =>
        SelectPaymentMethod(choice);
      case Submit =>
        HandleManualSubmit(rendered, now);
      case PaymentSucceeded =>
        HandleOrderSuccess(rendered, now);
    }
  }

  /** The card path finalizes without looking at the form: the gateway's
      callback on a fresh screen commits an order whose customer is the empty form. */
  method CardPaymentSkipsValidation(items: seq<CartItem>, now: Timestamp) returns (orders: seq<Order>)
    requires |items| > 0
    ensures orders == [Order(EmptyForm, items, ComputeTotals(items).total, now)]
  {
    var s := new Session(items);
    s.Deliver(PaymentSucceeded, now);
    orders := Purchases(s.effects);
  }

  /** With the card method selected there is no Pay Now button, so a submit
      commits nothing, however complete the form is. */
  method CardPathIgnoresSubmit(items: seq<CartItem>, f: Form, now: Timestamp) returns (orders: seq<Order>, cartAfter: seq<CartItem>)
    ensures orders == [] && cartAfter == items
  {
    var s := new Session(items);
    s.Deliver(Edit(NameField, f.name), now);
    s.Deliver(Edit(EmailField, f.email), now);
    s.Deliver(Edit(AddressField, f.address), now);
    s.Deliver(Submit, now);
    orders := Purchases(s.effects);
    cartAfter := s.cart;
  }

  /** Nothing guards the commit point: the card widget calling one render's
      callback twice records two orders over the same captured items and total. */
  method RepeatedOrderSuccess(items: seq<CartItem>, first: Timestamp, second: Timestamp)
    returns (orders: seq<Order>, cartAfter: seq<CartItem>)
    requires |items| > 0
    ensures orders == [Order(EmptyForm, items, ComputeTotals(items).total, first),
                       Order(EmptyForm, items, ComputeTotals(items).total, second)]
    ensures cartAfter == []
  {
    var s := new Session(items);
    assert s.View().CheckoutView? && s.View().cardWidget;
    var callback := s.Rendering();
    s.HandleOrderSuccess(callback, first);
    s.HandleOrderSuccess(callback, second);
    orders := Purchases(s.effects);
    cartAfter := s.cart;
  }

  /** One Widget at 10 times 2, a complete form and PayPal: one order of
      total 22, then an empty cart, one success toast and the navigation. */
  method WidgetCheckout(now: Timestamp) returns (log: seq<Effect>, cartAfter: seq<CartItem>)
    ensures cartAfter == []
    ensures log == [SetPurchases(Order(Form("Ann", "ann@x.com", "1 Main St"), [CartItem(1, "Widget", 10.0, 2)], 22.0, now)),
                    ClearCart, Toast(Success, SuccessMessage), Navigate(ThankYouPath)]
  {
    var item := CartItem(1, "Widget", 10.0, 2);
    var s := new Session([item]);
    s.HandleChange(NameField, "Ann");
    s.HandleChange(EmailField, "ann@x.com");
    s.HandleChange(AddressField, "1 Main St");
    s.SelectPaymentMethod(PayPal);
    assert s.form == Form("Ann", "ann@x.com", "1 Main St");
    assert CheckForm(s.form) == None by { AcceptsSimpleAddress(); }
    assert s.cart == [item] && s.effects == [];
    assert s.View() == CheckoutView(false, true, ComputeTotals([item]));
    assert Commits(s.View(), s.form, Submit);
    s.Deliver(Submit, now);
    assert s.effects == CommitEffects(Rendered(Form("Ann", "ann@x.com", "1 Main St"), [item], ComputeTotals([item]).total), now);
    assert ComputeTotals([item]).total == 22.0 by { SampleCartTotals(); }
    log := s.effects;
    cartAfter := s.cart;
  }
}
