/**
 * The checkout page: the order summary (subtotal, 10% tax, free
 * shipping, total), the flat form record updated one field at a time,
 * the input length limits, and what a submit does.
 */
module Checkout {
  import opened Wrappers
  import opened Cart

  datatype Field =
    | Email | FirstName | LastName | Address | City | State | ZipCode
    | CardNumber | CardName | ExpiryDate | Cvv

  datatype FormData = FormData(
    email: string, firstName: string, lastName: string, address: string,
    city: string, state: string, zipCode: string, cardNumber: string,
    cardName: string, expiryDate: string, cvv: string)

  /** Every field of the form, in declaration order. */
  const Fields: seq<Field> :=
    [Email, FirstName, LastName, Address, City, State, ZipCode, CardNumber, CardName, ExpiryDate, Cvv]

  const InitialForm := FormData("", "", "", "", "", "", "", "", "", "", "")

  function Get(form: FormData, f: Field): string
  {
    match f
    case Email => form.email
    case FirstName => form.firstName
    case LastName => form.lastName
    case Address => form.address
    case City => form.city
    case State => form.state
    case ZipCode => form.zipCode
    case CardNumber => form.cardNumber
    case CardName => form.cardName
    case ExpiryDate => form.expiryDate
    case Cvv => form.cvv
  }

  /** The form starts with its eleven fields, all empty. */
  lemma InitialFormBlank()
    ensures |Fields| == 11
    ensures forall f: Field :: f in Fields
    ensures forall i, j :: 0 <= i < j < |Fields| ==> Fields[i] != Fields[j]
    ensures forall f :: Get(InitialForm, f) == ""
  {
    forall f: Field ensures f in Fields && Get(InitialForm, f) == "" {
      match f
      case Email => assert Fields[0] == f;
      case FirstName => assert Fields[1] == f;
      case LastName => assert Fields[2] == f;
      case Address => assert Fields[3] == f;
      case City => assert Fields[4] == f;
      case State => assert Fields[5] == f;
      case ZipCode => assert Fields[6] == f;
      case CardNumber => assert Fields[7] == f;
      case CardName => assert Fields[8] == f;
      case ExpiryDate => assert Fields[9] == f;
      case Cvv => assert Fields[10] == f;
    }
  }

  /** `handleChange`: the named field takes the new value and every other field keeps its own. */
  function WithField(form: FormData, f: Field, value: string): (r: FormData)
    ensures Get(r, f) == value
    ensures forall g :: g != f ==> Get(r, g) == Get(form, g)
  {
    match f
    case Email => form.(email := value)
    case FirstName => form.(firstName := value)
    case LastName => form.(lastName := value)
    case Address => form.(address := value)
    case City => form.(city := value)
    case State => form.(state := value)
    case ZipCode => form.(zipCode := value)
    case CardNumber => form.(cardNumber := value)
    case CardName => form.(cardName := value)
    case ExpiryDate => form.(expiryDate := value)
    case Cvv => form.(cvv := value)
  }

  /** The `maxLength` of each input: card number 19, expiry 5, CVV 4, the rest unlimited. */
  function MaxLength(f: Field): Option<nat>
  {
    match f
    case CardNumber => Some(19)
    case ExpiryDate => Some(5)
    case Cvv => Some(4)
    case _ => None
  }

  predicate WithinLimit(f: Field, value: string)
  {
    MaxLength(f).None? || |value| <= MaxLength(f).value
  }

  ghost predicate WithinLimits(form: FormData)
  {
    forall f :: WithinLimit(f, Get(form, f))
  }

  /** Values the inputs let through keep every field within its limit. */
  lemma ChangeKeepsLimits(form: FormData, f: Field, value: string)
    requires WithinLimits(form)
    requires WithinLimit(f, value)
    ensures WithinLimits(WithField(form, f, value))
  {
    var r := WithField(form, f, value);
    forall g ensures WithinLimit(g, Get(r, g)) {
      if g != f {
        assert WithinLimit(g, Get(form, g));
      }
    }
  }

  /** The 10% tax on a subtotal. */
  function Tax(subtotal: real): (r: real)
    ensures subtotal >= 0.0 ==> 0.0 <= r <= subtotal
    ensures subtotal <= 0.0 ==> subtotal <= r <= 0.0
  {
    subtotal * 0.1
  }

  /** Subtotal plus tax; shipping is free and adds nothing. */
  function FinalTotal(subtotal: real): (r: real)
    ensures r == subtotal * 1.1
  {
    subtotal + Tax(subtotal)
  }

  const Shipping: real := 0.0

  datatype Summary = Summary(lines: seq<CartLine>, subtotal: real, shipping: real, tax: real, total: real)

  datatype View =
    | EmptyState
    | CheckoutForm(form: FormData, summary: Summary, placeOrderAmount: real)

  /**
   * The page: the empty-state view for an empty cart; otherwise the form,
   * the summary, and the Place Order button showing the same total.
   */
  function Render(cart: seq<CartLine>, form: FormData): (v: View)
    ensures v.EmptyState? <==> cart == []
    ensures v.CheckoutForm? ==> v.form == form && v.summary.lines == cart
    ensures v.CheckoutForm? ==> v.summary.subtotal == Subtotal(cart)
    ensures v.CheckoutForm? ==> v.summary.tax == v.summary.subtotal * 0.1 && v.summary.shipping == 0.0
    ensures v.CheckoutForm? ==> v.summary.total == v.summary.subtotal + v.summary.shipping + v.summary.tax
    ensures v.CheckoutForm? ==> v.summary.total == v.summary.subtotal * 1.1
    ensures v.CheckoutForm? ==> v.placeOrderAmount == v.summary.total
  {
    if |cart| == 0 then EmptyState
    else
      var subtotal := Subtotal(cart);
      var total := FinalTotal(subtotal);
      CheckoutForm(form, Summary(cart, subtotal, Shipping, Tax(subtotal), total), total)
  }

  /** The effects of a submit, in order. */
  datatype Effect = Alert(message: string) | ClearCart | Navigate(path: string)

  const OrderPlacedText := "Order placed successfully! Thank you for your purchase."

  /**
   * `handleSubmit`: the acknowledgement, then `clearCart` only if the page
   * was given one, then navigation to the catalog.
   */
  function HandleSubmit(clearCartSupplied: bool): (effects: seq<Effect>)
    ensures |effects| >= 2
    ensures effects[0] == Alert(OrderPlacedText)
    ensures effects[|effects| - 1] == Navigate("/")
    ensures ClearCart in effects <==> clearCartSupplied
    ensures clearCartSupplied ==> effects[1] == ClearCart
  {
    [Alert(OrderPlacedText)] + (if clearCartSupplied then [ClearCart] else []) + [Navigate("/")]
  }

  /** The page's `formData` state slot. */
  class CheckoutPage {
    var form: FormData

    ghost predicate Valid()
      reads this
    {
      WithinLimits(form)
    }

    constructor()
      ensures Valid()
      ensures form == InitialForm
    {
      form := InitialForm;
    }

    /** `handleChange` for an input whose `maxLength` let `value` through. */
    method HandleChange(f: Field, value: string)
      requires Valid()
      requires WithinLimit(f, value)
      modifies this
      ensures Valid()
      ensures form == WithField(old(form), f, value)
    {
      ChangeKeepsLimits(form, f, value);
      form := WithField(form, f, value);
    }
  }
}
