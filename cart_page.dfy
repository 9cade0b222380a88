/** The cart page (src/components/CartPage.tsx): shipping and the amount to
    pay, the free-shipping hint, and the guard sequence of `handleCheckout`.
    `submitOrder` belongs to code that is not part of this model; its answer,
    which may be a thrown error, is a parameter. */
module CartPage {
  import opened Common

  const FreeShippingFrom: int := 10000
  const ShippingFee: int := 6000

  /** Shipping is free from 10000 on, and 6000 below that. */
  function ShippingCost(cartTotal: int): (cost: int)
    ensures cost == 0 || cost == ShippingFee
    ensures cost == 0 <==> cartTotal >= FreeShippingFrom
  {
    if cartTotal < FreeShippingFrom then ShippingFee else 0
  }

  /** What the customer pays: never less than the cart, and exactly the cart
      when shipping is free. */
  function FinalTotal(cartTotal: int): (total: int)
    ensures total >= cartTotal
    ensures total == cartTotal <==> cartTotal >= FreeShippingFrom
    ensures total == cartTotal + ShippingFee <==> cartTotal < FreeShippingFrom
  {
    cartTotal + ShippingCost(cartTotal)
  }

  /** "¡Agrega $X más para envío gratis!": shown exactly when shipping is
      charged, and X is then the positive amount that reaches free shipping. */
  function FreeShippingHint(cartTotal: int): (missing: Option<int>)
    ensures missing.Some? <==> ShippingCost(cartTotal) > 0
    ensures missing.Some? ==> missing.value > 0 && ShippingCost(cartTotal + missing.value) == 0
    ensures missing.Some? ==> cartTotal + missing.value == FreeShippingFrom
  {
    if ShippingCost(cartTotal) > 0 then Some(FreeShippingFrom - cartTotal) else None
  }

  predicate AddressAccepted(address: string) {
    !(Trim(address) == "" || JsLength(address) < 5)
  }

  predicate PhoneAccepted(phone: string) {
    !(Trim(phone) == "" || JsLength(phone) < 7)
  }

  /** An address passes when it has at least 5 UTF-16 code units, counted
      before trimming, and is not all whitespace; a phone likewise with 7.
      For text without supplementary characters that is 5 (7) characters. */
  lemma ContactRules(address: string, phone: string)
    ensures AddressAccepted(address) <==> JsLength(address) >= 5 && !AllSpace(address)
    ensures PhoneAccepted(phone) <==> JsLength(phone) >= 7 && !AllSpace(phone)
    ensures (forall i :: 0 <= i < |address| ==> !Supplementary(address[i])) ==>
      (AddressAccepted(address) <==> |address| >= 5 && !AllSpace(address))
    ensures (forall i :: 0 <= i < |phone| ==> !Supplementary(phone[i])) ==>
      (PhoneAccepted(phone) <==> |phone| >= 7 && !AllSpace(phone))
  {
    TrimEmptyIffAllSpace(address);
    TrimEmptyIffAllSpace(phone);
  }

  /** Five spaces are long enough but blank, so they are refused. */
  lemma BlankAddressRefused()
    ensures !AddressAccepted("     ")
  {
    TrimEmptyIffAllSpace("     ");
  }

  /** Four characters, one of them an emoji, make five code units, which is
      long enough. */
  lemma EmojiCountsTwice()
    ensures |"ab\U{1F600}c"| == 4 && AddressAccepted("ab\U{1F600}c")
  {
    var a := "ab\U{1F600}c";
    assert JsLength(a[3..]) == 1;
    assert JsLength(a[2..]) == 3 by { assert a[2..][1..] == a[3..]; }
    assert JsLength(a[1..]) == 4 by { assert a[1..][1..] == a[2..]; }
    assert JsLength(a) == 5 by { assert a[1..] == a[1..]; }
    assert !AllSpace(a) by { assert !IsSpace(a[0]); }
    TrimEmptyIffAllSpace(a);
  }

  /** What the awaited `submitOrder()` gives: a resolved success flag, or a
      rejection. The provider at src/context/GlobalContext.tsx:235-239 puts no
      `submitOrder` in its value, so as the storefront is wired the call
      throws and the answer is `Rejected`. */
  datatype SubmitAnswer = Resolved(success: bool) | Rejected

  datatype CheckoutOutcome = RedirectToLogin | InvalidAddress | InvalidPhone | SubmitFailed | SubmitRejected | OrderPlaced

  /** The outcome of `handleCheckout`, checking login, then the address, then
      the phone; only then is the order submitted, and `answer` is what the
      call gives. */
  function CheckoutOutcomeOf(loggedIn: bool, address: string, phone: string, answer: SubmitAnswer): (o: CheckoutOutcome)
    ensures !loggedIn <==> o == RedirectToLogin
    ensures o in {SubmitFailed, SubmitRejected, OrderPlaced} <==> loggedIn && AddressAccepted(address) && PhoneAccepted(phone)
    ensures o == OrderPlaced <==> loggedIn && AddressAccepted(address) && PhoneAccepted(phone) && answer == Resolved(true)
    ensures o == SubmitRejected <==> loggedIn && AddressAccepted(address) && PhoneAccepted(phone) && answer.Rejected?
    ensures o == InvalidAddress <==> loggedIn && !AddressAccepted(address)
  {
    if !loggedIn then RedirectToLogin
    else if Trim(address) == "" || JsLength(address) < 5 then InvalidAddress
    else if Trim(phone) == "" || JsLength(phone) < 7 then InvalidPhone
    else match answer
      case Rejected => SubmitRejected
      case Resolved(success) => if success then OrderPlaced else SubmitFailed
  }

  /** Where the page navigates after a checkout attempt. */
  function NavigationAfter(o: CheckoutOutcome): (target: Option<string>)
    ensures target == Some("/login") <==> o == RedirectToLogin
    ensures target == Some("/profile") <==> o == OrderPlaced
    ensures target.None? <==> o != RedirectToLogin && o != OrderPlaced
  {
    match o
    case RedirectToLogin => Some("/login")
    case OrderPlaced => Some("/profile")
    case _ => None
  }

  /** The user's saved contact details, either of which may be missing. */
  datatype Contact = Contact(address: Option<string>, phone: Option<string>)

  class CheckoutForm {
    var confirmAddress: string
    var confirmPhone: string
    var isSubmitting: bool

    constructor()
      ensures confirmAddress == "" && confirmPhone == "" && !isSubmitting
    {
      confirmAddress := "";
      confirmPhone := "";
      isSubmitting := false;
    }

    /** The effect on `user`: a signed-in user's details fill the form. */
    method LoadContact(user: Option<Contact>)
      modifies this`confirmAddress, this`confirmPhone
      ensures user.Some? ==> confirmAddress == OrEmpty(user.value.address) && confirmPhone == OrEmpty(user.value.phone)
      ensures user.None? ==> confirmAddress == old(confirmAddress) && confirmPhone == old(confirmPhone)
    {
      if user.Some? {
        confirmAddress := OrEmpty(user.value.address);
        confirmPhone := OrEmpty(user.value.phone);
      }
    }

    method SetAddress(address: string)
      modifies this`confirmAddress
      ensures confirmAddress == address
    {
      confirmAddress := address;
    }

    method SetPhone(phone: string)
      modifies this`confirmPhone
      ensures confirmPhone == phone
    {
      confirmPhone := phone;
    }

    /** `handleCheckout`: `submitted` tells whether `submitOrder` was called.
        The submitting flag goes on before the call and back off only when
        the call resolves; a rejection leaves it on, and the button disabled. */
    method HandleCheckout(loggedIn: bool, answer: SubmitAnswer) returns (outcome: CheckoutOutcome, submitted: bool)
      modifies this`isSubmitting
      ensures outcome == CheckoutOutcomeOf(loggedIn, confirmAddress, confirmPhone, answer)
      ensures submitted <==> outcome in {SubmitFailed, SubmitRejected, OrderPlaced}
      ensures isSubmitting == (if outcome == SubmitRejected then true else if submitted then false else old(isSubmitting))
    {
      submitted := false;
      if !loggedIn {
        return RedirectToLogin, false;
      }
      if Trim(confirmAddress) == "" || JsLength(confirmAddress) < 5 {
        return InvalidAddress, false;
      }
      if Trim(confirmPhone) == "" || JsLength(confirmPhone) < 7 {
        return InvalidPhone, false;
      }
      isSubmitting := true;
      submitted := true;
      if answer.Rejected? {
        return SubmitRejected, true;
      }
      isSubmitting := false;
      outcome := if answer.success then OrderPlaced else SubmitFailed;
    }
  }
}
