/** The checkout form (`src/components/checkout/CheckoutForm.tsx`): the contact and address
    fields it edits, the order input it assembles from them and from the cart, and what it does
    with the cart once the order request settles. The request itself is an input to the model. */
module Checkout {
  import opened Common
  import opened CartStore

  /** The form's fields, named as its inputs' `name` attributes. */
  datatype Field = FirstName | LastName | Email | Phone | Address1 | City | State | Postcode | Country

  datatype FormData = FormData(
    firstName: string,
    lastName: string,
    email: string,
    phone: string,
    address1: string,
    city: string,
    state: string,
    postcode: string,
    country: string)

  /** The form as first shown: every field empty except the country, Pakistan. */
  const InitialForm: FormData := FormData("", "", "", "", "", "", "", "", "PK")

  /** `formData[name]`. */
  function FieldValue(f: FormData, field: Field): string {
    match field
    case FirstName => f.firstName
    case LastName => f.lastName
    case Email => f.email
    case Phone => f.phone
    case Address1 => f.address1
    case City => f.city
    case State => f.state
    case Postcode => f.postcode
    case Country => f.country
  }

  /** `{ ...prev, [name]: value }`. */
  function WithField(f: FormData, field: Field, value: string): FormData {
    match field
    case FirstName => f.(firstName := value)
    case LastName => f.(lastName := value)
    case Email => f.(email := value)
    case Phone => f.(phone := value)
    case Address1 => f.(address1 := value)
    case City => f.(city := value)
    case State => f.(state := value)
    case Postcode => f.(postcode := value)
    case Country => f.(country := value)
  }

  /** An edit sets the named field and leaves every other field as it was. */
  lemma WithFieldSetsOnlyThatField(f: FormData, field: Field, value: string, other: Field)
    ensures FieldValue(WithField(f, field, value), field) == value
    ensures other != field ==> FieldValue(WithField(f, field, value), other) == FieldValue(f, other)
  {
  }

  /** The initial form is blank apart from the country. */
  lemma InitialFormBlank(field: Field)
    ensures FieldValue(InitialForm, field) == if field == Country then "PK" else ""
  {
  }

  // ---------------------------------------------------------------------------
  // The order input

  datatype Billing = Billing(
    firstName: string,
    lastName: string,
    address1: string,
    city: string,
    state: string,
    postcode: string,
    country: string,
    email: string,
    phone: string)

  /** The shipping address has no e-mail or phone. */
  datatype Shipping = Shipping(
    firstName: string,
    lastName: string,
    address1: string,
    city: string,
    state: string,
    postcode: string,
    country: string)

  datatype LineItem = LineItem(productId: int, quantity: int)

  datatype CheckoutInput = CheckoutInput(
    clientMutationId: string,
    billing: Billing,
    shipping: Shipping,
    shipToDifferentAddress: bool,
    paymentMethod: string,
    isPaid: bool,
    lineItems: seq<LineItem>)

  /** `items.map(item => ({ productId: item.databaseId, quantity: item.quantity }))`. */
  function LineItems(items: seq<CartItem>): (r: seq<LineItem>)
    ensures |r| == |items|
    ensures forall i :: 0 <= i < |r| ==>
      r[i].productId == items[i].product.databaseId && r[i].quantity == items[i].quantity
  {
    seq(|items|, i requires 0 <= i < |items| => LineItem(items[i].product.databaseId, items[i].quantity))
  }

  /** The input `handleSubmit` sends: billing from every field, shipping from the name and
      address fields, cash on delivery, unpaid, and one line per cart line. The mutation id
      (a random UUID) is a parameter. */
  function BuildInput(clientMutationId: string, f: FormData, items: seq<CartItem>): CheckoutInput {
    CheckoutInput(
      clientMutationId,
      Billing(f.firstName, f.lastName, f.address1, f.city, f.state, f.postcode, f.country, f.email, f.phone),
      Shipping(f.firstName, f.lastName, f.address1, f.city, f.state, f.postcode, f.country),
      false,
      "cod",
      false,
      LineItems(items))
  }

  /** The form a billing block was filled from. */
  function FormOf(b: Billing): FormData {
    FormData(b.firstName, b.lastName, b.email, b.phone, b.address1, b.city, b.state, b.postcode, b.country)
  }

  /** Billing carries every field of the form: the form can be read back from it. Shipping
      repeats billing's name and address and nothing else; the order is cash on delivery,
      unpaid, and shipped to the billing address. */
  lemma BuildInputSpec(id: string, f: FormData, items: seq<CartItem>)
    ensures var input := BuildInput(id, f, items);
      && FormOf(input.billing) == f
      && input.shipping == Shipping(input.billing.firstName, input.billing.lastName, input.billing.address1,
           input.billing.city, input.billing.state, input.billing.postcode, input.billing.country)
      && input.paymentMethod == "cod" && !input.isPaid && !input.shipToDifferentAddress
      && input.clientMutationId == id
  {
  }

  /** The units ordered: the sum of the line items' quantities. */
  function OrderedQuantity(lines: seq<LineItem>): int {
    if lines == [] then 0 else OrderedQuantity(lines[..|lines| - 1]) + lines[|lines| - 1].quantity
  }

  /** The order asks for exactly the units in the cart (the header's count). */
  lemma {:induction false} LineItemsCarryQuantities(items: seq<CartItem>)
    ensures OrderedQuantity(LineItems(items)) == TotalQuantity(items)
  {
    if items != [] {
      var init := items[..|items| - 1];
      LineItemsCarryQuantities(init);
      assert LineItems(items)[..|items| - 1] == LineItems(init);
    }
  }

  // ---------------------------------------------------------------------------
  // Submitting

  const FailedMsg: string := "Checkout failed. Please try again."
  const ErrorMsg: string := "An error occurred during checkout."
  const OrderReceivedPath: string := "/order-received"

  /** How `processCheckout` settles: it returns a response whose `result` may be absent, or it
      throws. */
  datatype CheckoutOutcome = Responded(result: Option<string>) | Threw

  predicate Succeeded(outcome: CheckoutOutcome) {
    outcome == Responded(Some("success"))
  }

  /** The error shown after the request settles, if any. */
  function OutcomeError(outcome: CheckoutOutcome): (r: Option<string>)
    ensures r.None? <==> Succeeded(outcome)
  {
    match outcome
    case Threw => Some(ErrorMsg)
    case Responded(result) => if result == Some("success") then None else Some(FailedMsg)
  }

  /** With an empty cart the page shows a message instead of the form. */
  datatype CheckoutView = EmptyCartMessage | OrderForm

  function View(items: seq<CartItem>): CheckoutView {
    if |items| == 0 then EmptyCartMessage else OrderForm
  }

  class CheckoutForm {
    const cart: Cart
    var formData: FormData
    var isSubmitting: bool
    var error: Option<string>
    /** The path `router.push` was last called with. */
    var navigatedTo: Option<string>

    constructor (cart: Cart)
      ensures this.cart == cart
      ensures formData == InitialForm && !isSubmitting && error == None && navigatedTo == None
    {
      this.cart := cart;
      formData := InitialForm;
      isSubmitting := false;
      error := None;
      navigatedTo := None;
    }

    /** `handleChange`: one field changes. */
    method HandleChange(field: Field, value: string)
      modifies this
      ensures formData == WithField(old(formData), field, value)
      ensures isSubmitting == old(isSubmitting) && error == old(error) && navigatedTo == old(navigatedTo)
    {
      formData := WithField(formData, field, value);
    }

    /** The start of `handleSubmit`: the form is marked as submitting, the error is cleared,
        and the order input is assembled from the form and the cart's lines. */
    method BeginSubmit(clientMutationId: string) returns (input: CheckoutInput)
      modifies this
      ensures isSubmitting && error == None
      ensures formData == old(formData) && navigatedTo == old(navigatedTo)
      ensures input == BuildInput(clientMutationId, formData, cart.items)
    {
      isSubmitting := true;
      error := None;
      input := BuildInput(clientMutationId, formData, cart.items);
    }

    /** The end of `handleSubmit`: on success the cart is cleared and the shopper is sent to the
        order-received page; otherwise an error is shown and the cart is left intact. Either way
        the form stops submitting. */
    method FinishSubmit(outcome: CheckoutOutcome)
      requires error == None
      modifies this, cart
      ensures !isSubmitting && formData == old(formData)
      ensures error == OutcomeError(outcome)
      ensures Succeeded(outcome) ==>
        cart.State() == Apply(old(cart.State()), Clear) && navigatedTo == Some(OrderReceivedPath)
      ensures !Succeeded(outcome) ==>
        cart.State() == old(cart.State()) && navigatedTo == old(navigatedTo)
    {
      match outcome {
        case Responded(result) =>
          if result == Some("success") {
            cart.ClearCart();
            navigatedTo := Some(OrderReceivedPath);
          } else {
            error := Some(FailedMsg);
          }
        case Threw =>
          error := Some(ErrorMsg);
      }
      isSubmitting := false;
    }

    /** `handleSubmit` as a whole, with the request's outcome given. */
    method HandleSubmit(clientMutationId: string, outcome: CheckoutOutcome) returns (input: CheckoutInput)
      modifies this, cart
      ensures input == BuildInput(clientMutationId, old(formData), old(cart.items))
      ensures !isSubmitting && error == OutcomeError(outcome) && formData == old(formData)
      ensures Succeeded(outcome) ==>
        && cart.State() == Apply(old(cart.State()), Clear)
        && navigatedTo == Some(OrderReceivedPath)
        && View(cart.items) == EmptyCartMessage
      ensures !Succeeded(outcome) ==> cart.State() == old(cart.State()) && navigatedTo == old(navigatedTo)
    {
      input := BeginSubmit(clientMutationId);
      FinishSubmit(outcome);
    }
  }
}
