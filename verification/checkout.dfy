/** The checkout page (src/pages/Checkout.tsx): it shows the cart handed over
    by the selection page with its subtotal, collects billing details one
    field at a time, validates them, and runs a mocked order submission
    guarded by a `processing` flag. */
module Checkout {
  import opened Prelude
  import opened Types

  // ---------------------------------------------------------------------
  // Subtotal
  // ---------------------------------------------------------------------

  /** `items.reduce((total, item) => total + item.price * item.quantity, 0)`,
      folded from the left. */
  function ItemsTotal(items: seq<CartItem>): int {
    if |items| == 0 then 0
    else ItemsTotal(items[..|items| - 1]) + items[|items| - 1].price * items[|items| - 1].quantity
  }

  /** `calculateSubtotal()`: 0 when the page was reached without a cart. */
  function Subtotal(cartItems: Option<seq<CartItem>>): int {
    match cartItems
    case None => 0
    case Some(items) => ItemsTotal(items)
  }

  /** Every item has a non-negative price and quantity. */
  ghost predicate NonNegativeItems(items: seq<CartItem>) {
    forall i :: 0 <= i < |items| ==> items[i].price >= 0 && items[i].quantity >= 0
  }

  /** The subtotal of two carts laid end to end is the sum of their
      subtotals, so the total does not depend on where the cart is split. */
  lemma {:induction false} ItemsTotalAppend(a: seq<CartItem>, b: seq<CartItem>)
    ensures ItemsTotal(a + b) == ItemsTotal(a) + ItemsTotal(b)
  {
    if |b| > 0 {
      assert (a + b)[..|a + b| - 1] == a + b[..|b| - 1];
      ItemsTotalAppend(a, b[..|b| - 1]);
    } else {
      assert a + b == a;
    }
  }

  lemma {:induction false} ItemsTotalNonNegative(items: seq<CartItem>)
    requires NonNegativeItems(items)
    ensures ItemsTotal(items) >= 0
  {
    if |items| > 0 {
      var last := items[|items| - 1];
      ItemsTotalNonNegative(items[..|items| - 1]);
      assert last.price * last.quantity >= 0;
    }
  }

  /** No cart gives 0; items with non-negative prices and quantities give a
      non-negative subtotal. */
  lemma SubtotalNonNegative(cartItems: Option<seq<CartItem>>)
    requires cartItems.Some? ==> NonNegativeItems(cartItems.value)
    ensures cartItems.None? ==> Subtotal(cartItems) == 0
    ensures Subtotal(cartItems) >= 0
  {
    if cartItems.Some? {
      ItemsTotalNonNegative(cartItems.value);
    }
  }

  // ---------------------------------------------------------------------
  // Billing details
  // ---------------------------------------------------------------------

  /** The form's state when the page opens: empty fields, M-Pesa selected. */
  function InitialBilling(): (b: BillingDetails)
    ensures b.name == "" && b.email == "" && b.phone == "" && b.paymentMethod == MPesa
  {
    BillingDetails("", "", "", MPesa)
  }

  /** A call `handleInputChange(field, value)`: which field, and its new
      value. The payment-method select only offers its two values. */
  datatype FieldEdit =
    | Name(value: string)
    | Email(value: string)
    | Phone(value: string)
    | Method(choice: PaymentMethod)

  /** The billing record after one edit. */
  function WithField(b: BillingDetails, edit: FieldEdit): (r: BillingDetails)
    ensures r.name == (if edit.Name? then edit.value else b.name)
    ensures r.email == (if edit.Email? then edit.value else b.email)
    ensures r.phone == (if edit.Phone? then edit.value else b.phone)
    ensures r.paymentMethod == (if edit.Method? then edit.choice else b.paymentMethod)
  {
    match edit
    case Name(v) => b.(name := v)
    case Email(v) => b.(email := v)
    case Phone(v) => b.(phone := v)
    case Method(m) => b.(paymentMethod := m)
  }

  /** Which field an edit touches. */
  function FieldOf(edit: FieldEdit): nat {
    match edit
    case Name(_) => 0
    case Email(_) => 1
    case Phone(_) => 2
    case Method(_) => 3
  }

  /** Edits of different fields commute; of the same field, the later one
      wins. */
  lemma EditsCommuteOrOverride(b: BillingDetails, e1: FieldEdit, e2: FieldEdit)
    ensures FieldOf(e1) != FieldOf(e2) ==>
      WithField(WithField(b, e1), e2) == WithField(WithField(b, e2), e1)
    ensures FieldOf(e1) == FieldOf(e2) ==>
      WithField(WithField(b, e1), e2) == WithField(b, e2)
  {
  }

  // ---------------------------------------------------------------------
  // The phone pattern /^(254|0)[0-9]{9}$/
  // ---------------------------------------------------------------------

  predicate IsDigit(c: char) {
    '0' <= c <= '9'
  }

  ghost predicate AllDigits(s: string) {
    forall i :: 0 <= i < |s| ==> IsDigit(s[i])
  }

  /** `[0-9]{n}$`: the rest of the input is exactly `n` digits. */
  predicate DigitsToEnd(s: string, n: nat) {
    if n == 0 then s == []
    else |s| > 0 && IsDigit(s[0]) && DigitsToEnd(s[1..], n - 1)
  }

  /** `^(254|0)[0-9]{9}$`, one alternative after the other. */
  predicate MatchesMpesaPhone(s: string) {
    || (|s| >= 3 && s[..3] == "254" && DigitsToEnd(s[3..], 9))
    || (|s| >= 1 && s[0] == '0' && DigitsToEnd(s[1..], 9))
  }

  lemma {:induction false} DigitsToEndIff(s: string, n: nat)
    ensures DigitsToEnd(s, n) <==> |s| == n && AllDigits(s)
  {
    if n > 0 && |s| > 0 {
      DigitsToEndIff(s[1..], n - 1);
      assert AllDigits(s) <==> IsDigit(s[0]) && AllDigits(s[1..]) by {
        assert forall i :: 1 <= i < |s| ==> s[i] == s[1..][i - 1];
      }
    }
  }

  /** The phone pattern accepts exactly the all-digit strings of length 12
      that start with "254" and of length 10 that start with "0". */
  lemma MpesaPhoneShape(s: string)
    ensures MatchesMpesaPhone(s) <==>
      AllDigits(s) &&
      ((|s| == 12 && s[..3] == "254") || (|s| == 10 && s[0] == '0'))
  {
    if |s| >= 3 {
      DigitsToEndIff(s[3..], 9);
      assert s[..3] == "254" ==> (AllDigits(s) <==> AllDigits(s[3..])) by {
        if s[..3] == "254" {
          assert forall i :: 0 <= i < 3 ==> s[i] == "254"[i];
          assert forall i :: 3 <= i < |s| ==> s[i] == s[3..][i - 3];
        }
      }
    }
    if |s| >= 1 {
      DigitsToEndIff(s[1..], 9);
      assert s[0] == '0' ==> (AllDigits(s) <==> AllDigits(s[1..])) by {
        assert forall i :: 1 <= i < |s| ==> s[i] == s[1..][i - 1];
      }
    }
  }

  /** Nine digits, "712345678", are what both accepted examples end in. */
  lemma SubscriberDigits()
    ensures DigitsToEnd("712345678", 9)
  {
    var d := "712345678";
    assert d[1..] == "12345678" && d[1..][1..] == "2345678";
    assert "2345678"[1..] == "345678" && "345678"[1..] == "45678";
    assert "45678"[1..] == "5678" && "5678"[1..] == "678";
    assert "678"[1..] == "78" && "78"[1..] == "8" && "8"[1..] == "";
    assert DigitsToEnd("8", 1);
    assert DigitsToEnd("78", 2);
    assert DigitsToEnd("678", 3);
    assert DigitsToEnd("5678", 4);
    assert DigitsToEnd("45678", 5);
    assert DigitsToEnd("345678", 6);
    assert DigitsToEnd("2345678", 7);
    assert DigitsToEnd("12345678", 8);
  }

  /** The local form "0712345678" and the international form
      "254712345678" pass. */
  lemma MpesaPhoneAcceptsExamples()
    ensures MatchesMpesaPhone("0712345678")
    ensures MatchesMpesaPhone("254712345678")
  {
    var local, intl := "0712345678", "254712345678";
    SubscriberDigits();
    assert local[1..] == "712345678";
    assert intl[..3] == "254" && intl[3..] == "712345678";
  }

  /** "12345", "+254712345678" and the eleven-digit "07123456789" fail. */
  lemma MpesaPhoneRejectsExamples()
    ensures !MatchesMpesaPhone("12345")
    ensures !MatchesMpesaPhone("+254712345678")
    ensures !MatchesMpesaPhone("07123456789")
  {
    var short, plus, long := "12345", "+254712345678", "07123456789";
    assert short[..3] == "123";
    assert plus[..3] == "+25";
    assert long[..3] == "071" && |long[1..]| == 10;
    DigitsToEndIff(long[1..], 9);
  }

  // ---------------------------------------------------------------------
  // Validation
  // ---------------------------------------------------------------------

  datatype Validation = Accepted | MissingField | InvalidPhone

  /** The two checks at the head of `handleCompleteOrder`, in order: all
      three text fields present, then the phone pattern for M-Pesa. */
  function Validate(b: BillingDetails): (r: Validation)
    ensures r == MissingField <==> b.name == "" || b.email == "" || b.phone == ""
    ensures r == InvalidPhone <==>
      b.name != "" && b.email != "" && b.phone != "" &&
      b.paymentMethod == MPesa && !MatchesMpesaPhone(b.phone)
    ensures r == Accepted && b.paymentMethod == MPesa ==>
      AllDigits(b.phone) && (|b.phone| == 10 || |b.phone| == 12)
    ensures b.paymentMethod == Card ==>
      (r == Accepted <==> b.name != "" && b.email != "" && b.phone != "")
  {
    if b.name == "" || b.email == "" || b.phone == "" then MissingField
    else if b.paymentMethod == MPesa && !MatchesMpesaPhone(b.phone) then InvalidPhone
    else
      MpesaPhoneShape(b.phone);
      Accepted
  }

  // ---------------------------------------------------------------------
  // The page's state
  // ---------------------------------------------------------------------

  /** What a click on "Complete Order" led to. `Submitted(Pending)` means
      the order is in flight. */
  datatype Attempt = Ignored | Rejected(reason: Validation) | Submitted(status: OrderStatus)

  /** One checkout session: the cart and event it was opened with, the
      billing form and the `processing` flag. */
  class CheckoutPage {
    var cartItems: Option<seq<CartItem>>
    var event: Option<Event>
    var billing: BillingDetails
    var processing: bool
    /** Set when the page was opened without a cart or an event and sends
        the buyer back to `/`. */
    var redirectedHome: bool

    constructor (cartItems: Option<seq<CartItem>>, event: Option<Event>)
      ensures this.cartItems == cartItems && this.event == event
      ensures billing == InitialBilling() && !processing && !redirectedHome
    {
      this.cartItems := cartItems;
      this.event := event;
      billing := InitialBilling();
      processing := false;
      redirectedHome := false;
    }

    /** The mount effect: a session without a cart or without an event is
        invalid and goes back to the event list. */
    method CheckSession()
      modifies this`redirectedHome
      ensures redirectedHome == (old(redirectedHome) || cartItems.None? || event.None?)
    {
      if cartItems.None? || event.None? {
        redirectedHome := true;
      }
    }

    /** `calculateSubtotal()` over the page's cart. */
    function CalculateSubtotal(): (t: int)
      reads this
      ensures cartItems.None? ==> t == 0
      ensures cartItems.Some? && |cartItems.value| == 0 ==> t == 0
      ensures cartItems.Some? && NonNegativeItems(cartItems.value) ==> t >= 0
    {
      assert cartItems.Some? && NonNegativeItems(cartItems.value) ==> Subtotal(cartItems) >= 0 by {
        if cartItems.Some? && NonNegativeItems(cartItems.value) {
          SubtotalNonNegative(cartItems);
        }
      }
      Subtotal(cartItems)
    }

    /** `handleInputChange`: one field changes, nothing else. */
    method HandleInputChange(edit: FieldEdit)
      modifies this`billing
      ensures billing == WithField(old(billing), edit)
    {
      billing := WithField(billing, edit);
    }

    /** The "Remove" button only shows a notice; the cart is untouched. */
    method HandleRemove(index: nat)
      ensures cartItems == old(cartItems)
    {
    }

    /** A click on "Complete Order", up to the awaited payment. The button
        is disabled while an order is in flight, so a click then does
        nothing; otherwise a failed check rejects the click and leaves the
        flag down, and only when both checks pass is the flag raised. */
    method BeginOrder() returns (r: Attempt)
      modifies this`processing
      ensures old(processing) ==> r == Ignored && processing
      ensures !old(processing) && Validate(billing) != Accepted ==>
        r == Rejected(Validate(billing)) && !processing
      ensures !old(processing) && Validate(billing) == Accepted ==>
        r == Submitted(Pending) && processing
    {
      if processing {
        return Ignored;
      }
      var v := Validate(billing);
      if v != Accepted {
        return Rejected(v);
      }
      processing := true;
      r := Submitted(Pending);
    }

    /** The rest of the handler once the awaited work settles: it completes,
        or (`paymentError`) it throws and is caught; `finally` lowers the
        flag either way. */
    method FinishOrder(paymentError: bool) returns (status: OrderStatus)
      requires processing
      modifies this`processing
      ensures !processing
      ensures status == (if paymentError then Failed else Completed)
    {
      if paymentError {
        status := Failed;
      } else {
        status := Completed;
      }
      processing := false;
    }

    /** `handleCompleteOrder` run to the end: the flag is down afterwards,
        and an order reaches a final status only when both checks pass. */
    method HandleCompleteOrder(paymentError: bool) returns (r: Attempt)
      modifies this`processing
      ensures old(processing) ==> r == Ignored && processing
      ensures !old(processing) ==> !processing
      ensures !old(processing) && Validate(billing) != Accepted ==> r == Rejected(Validate(billing))
      ensures !old(processing) && Validate(billing) == Accepted ==>
        r == Submitted(if paymentError then Failed else Completed)
    {
      r := BeginOrder();
      if r.Submitted? {
        var status := FinishOrder(paymentError);
        r := Submitted(status);
      }
    }
  }
}
