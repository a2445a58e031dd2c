/** The checkout page (`src/pages/Checkout.jsx`): a form in three steps
    (1 shipping, 2 payment, 3 review) whose forward moves are gated by the
    current step's validation, and a submission that yields an order. */
module Checkout {
  import opened Wrappers
  import opened Text
  import opened CartStore

  /** The form's inputs, one constructor per `name` attribute. */
  datatype FieldName =
    | FirstName | LastName | Email | Address | City | State | ZipCode | Country
    | PaymentMethod | CardNumber | CardName | ExpiryDate | Cvv

  type FormData = map<FieldName, string>
  type FormErrors = map<FieldName, string>

  /** The form's starting values; the card fields start absent. */
  const InitialFormData: FormData := map[
    FirstName := "", LastName := "", Email := "", Address := "",
    City := "", State := "", ZipCode := "", Country := "USA",
    PaymentMethod := "credit-card"]

  /** The fields step 1 checks. */
  const ShippingFields: set<FieldName> :=
    {FirstName, LastName, Email, Address, City, State, ZipCode}

  /** The fields step 2 checks when paying by card. */
  const CardFields: set<FieldName> := {CardNumber, CardName, ExpiryDate, Cvv}

  /** `formData[name]`; an absent field reads as the empty string, which is as
      falsy as the `undefined` the page would see. */
  function Field(data: FormData, name: FieldName): string {
    if name in data then data[name] else ""
  }

  /** The message for a required field left empty. */
  function RequiredMessage(name: FieldName): string {
    match name
    case FirstName => "First name is required"
    case LastName => "Last name is required"
    case Email => "Email is required"
    case Address => "Address is required"
    case City => "City is required"
    case State => "State is required"
    case ZipCode => "Zip code is required"
    case CardNumber => "Card number is required"
    case CardName => "Name on card is required"
    case ExpiryDate => "Expiry date is required"
    case Cvv => "CVV is required"
    case _ => ""
  }

  /** The message for an e-mail address that does not match the pattern. */
  const InvalidEmailMessage := "Email is invalid"

  /** The error validation records for field `name` at `step`, if any:
      shipping fields must not be all white space (what `trim` removes), the e-mail must also
      match the pattern, and card fields must not be empty. */
  function FieldError(step: int, data: FormData, name: FieldName): Option<string> {
    if step == 1 && name in ShippingFields then
      if IsBlank(Field(data, name)) then Some(RequiredMessage(name))
      else if name == Email && !MatchesEmailPattern(Field(data, name)) then Some(InvalidEmailMessage)
      else None
    else if step == 2 && Field(data, PaymentMethod) == "credit-card" && name in CardFields then
      if |Field(data, name)| == 0 then Some(RequiredMessage(name)) else None
    else None
  }

  /** The error map validation builds at `step`: one entry per failing field. */
  function Errors(step: int, data: FormData): FormErrors {
    map name | name in ShippingFields + CardFields && FieldError(step, data, name).Some? ::
      FieldError(step, data, name).value
  }

  /** A map that agrees with `FieldError` on every field is the error map. */
  lemma ErrorsByField(step: int, data: FormData, errors: FormErrors)
    requires forall name :: name in errors <==> FieldError(step, data, name).Some?
    requires forall name | name in errors :: errors[name] == FieldError(step, data, name).value
    ensures errors == Errors(step, data)
  {
    forall name ensures name in errors <==> name in Errors(step, data) {
      if FieldError(step, data, name).Some? {
        assert name in ShippingFields + CardFields;
      }
    }
  }

  // ----- The checks as validation writes them, one assignment each -----

  /** `if (!formData[name].trim()) errors[name] = <required message>`: the
      `trim` test holds exactly for an all-white-space value. */
  function RequireNonBlank(errors: FormErrors, data: FormData, name: FieldName): (r: FormErrors)
    ensures r == if IsBlank(Field(data, name)) then errors[name := RequiredMessage(name)] else errors
  {
    TrimEmptyIffBlank(Field(data, name));
    if |Trim(Field(data, name))| == 0 then errors[name := RequiredMessage(name)] else errors
  }

  /** The two e-mail checks: required when blank after trimming, otherwise
      invalid when the pattern does not match. */
  function CheckEmail(errors: FormErrors, data: FormData): (r: FormErrors)
    ensures r == if IsBlank(Field(data, Email)) then errors[Email := RequiredMessage(Email)]
                 else if !MatchesEmailPattern(Field(data, Email)) then errors[Email := InvalidEmailMessage]
                 else errors
  {
    TrimEmptyIffBlank(Field(data, Email));
    if |Trim(Field(data, Email))| == 0 then errors[Email := RequiredMessage(Email)]
    else if !MatchesEmailPattern(Field(data, Email)) then errors[Email := InvalidEmailMessage]
    else errors
  }

  /** `if (!formData[name]) errors[name] = <required message>`. */
  function RequireNonEmpty(errors: FormErrors, data: FormData, name: FieldName): FormErrors {
    if |Field(data, name)| == 0 then errors[name := RequiredMessage(name)] else errors
  }

  /** The step-1 checks in the order validation makes them. */
  function ShippingChecks(data: FormData): FormErrors {
    var errors := RequireNonBlank(map[], data, FirstName);
    var errors := RequireNonBlank(errors, data, LastName);
    var errors := CheckEmail(errors, data);
    var errors := RequireNonBlank(errors, data, Address);
    var errors := RequireNonBlank(errors, data, City);
    var errors := RequireNonBlank(errors, data, State);
    RequireNonBlank(errors, data, ZipCode)
  }

  /** The step-2 checks in the order validation makes them. */
  function CardChecks(data: FormData): FormErrors {
    if Field(data, PaymentMethod) == "credit-card" then
      var errors := RequireNonEmpty(map[], data, CardNumber);
      var errors := RequireNonEmpty(errors, data, CardName);
      var errors := RequireNonEmpty(errors, data, ExpiryDate);
      RequireNonEmpty(errors, data, Cvv)
    else map[]
  }

  /** `errors` holds exactly the step-`step` errors of the fields in `done`. */
  ghost predicate AgreesOn(step: int, errors: FormErrors, data: FormData, done: set<FieldName>) {
    forall name ::
      && (name in errors <==> name in done && FieldError(step, data, name).Some?)
      && (name in errors ==> errors[name] == FieldError(step, data, name).value)
  }

  /** A required-field check on a shipping field extends the agreement to it. */
  lemma RequireNonBlankStep(errors: FormErrors, data: FormData, done: set<FieldName>, name: FieldName)
    requires AgreesOn(1, errors, data, done)
    requires name in ShippingFields && name != Email
    ensures AgreesOn(1, RequireNonBlank(errors, data, name), data, done + {name})
  {
  }

  /** The e-mail checks extend the agreement to the e-mail field. */
  lemma CheckEmailStep(errors: FormErrors, data: FormData, done: set<FieldName>)
    requires AgreesOn(1, errors, data, done)
    ensures AgreesOn(1, CheckEmail(errors, data), data, done + {Email})
  {
  }

  /** A card-field check extends the agreement to that field. */
  lemma RequireNonEmptyStep(errors: FormErrors, data: FormData, done: set<FieldName>, name: FieldName)
    requires AgreesOn(2, errors, data, done)
    requires name in CardFields && Field(data, PaymentMethod) == "credit-card"
    ensures AgreesOn(2, RequireNonEmpty(errors, data, name), data, done + {name})
  {
  }

  /** Agreement on every field a step checks is equality with its error map. */
  lemma AgreesOnAll(step: int, errors: FormErrors, data: FormData, done: set<FieldName>)
    requires AgreesOn(step, errors, data, done)
    requires ShippingFields + CardFields <= done
    ensures errors == Errors(step, data)
  {
    forall name | FieldError(step, data, name).Some?
      ensures name in ShippingFields + CardFields
    {
    }
    ErrorsByField(step, data, errors);
  }

  /** The step-1 checks build exactly the step-1 error map. */
  lemma ShippingChecksBuildErrors(data: FormData)
    ensures ShippingChecks(data) == Errors(1, data)
  {
    var done := CardFields + {Country, PaymentMethod};
    var errors: FormErrors := map[];
    RequireNonBlankStep(errors, data, done, FirstName);
    errors, done := RequireNonBlank(errors, data, FirstName), done + {FirstName};
    RequireNonBlankStep(errors, data, done, LastName);
    errors, done := RequireNonBlank(errors, data, LastName), done + {LastName};
    CheckEmailStep(errors, data, done);
    errors, done := CheckEmail(errors, data), done + {Email};
    RequireNonBlankStep(errors, data, done, Address);
    errors, done := RequireNonBlank(errors, data, Address), done + {Address};
    RequireNonBlankStep(errors, data, done, City);
    errors, done := RequireNonBlank(errors, data, City), done + {City};
    RequireNonBlankStep(errors, data, done, State);
    errors, done := RequireNonBlank(errors, data, State), done + {State};
    RequireNonBlankStep(errors, data, done, ZipCode);
    errors, done := RequireNonBlank(errors, data, ZipCode), done + {ZipCode};
    AgreesOnAll(1, errors, data, done);
  }

  /** The step-2 checks build exactly the step-2 error map. */
  lemma CardChecksBuildErrors(data: FormData)
    ensures CardChecks(data) == Errors(2, data)
  {
    var done := ShippingFields + {Country, PaymentMethod};
    var errors: FormErrors := map[];
    if Field(data, PaymentMethod) == "credit-card" {
      RequireNonEmptyStep(errors, data, done, CardNumber);
      errors, done := RequireNonEmpty(errors, data, CardNumber), done + {CardNumber};
      RequireNonEmptyStep(errors, data, done, CardName);
      errors, done := RequireNonEmpty(errors, data, CardName), done + {CardName};
      RequireNonEmptyStep(errors, data, done, ExpiryDate);
      errors, done := RequireNonEmpty(errors, data, ExpiryDate), done + {ExpiryDate};
      RequireNonEmptyStep(errors, data, done, Cvv);
      errors, done := RequireNonEmpty(errors, data, Cvv), done + {Cvv};
      AgreesOnAll(2, errors, data, done);
    } else {
      OtherCardChecksEmpty(data);
    }
  }

  lemma ErrorsEmptyIff(step: int, data: FormData)
    ensures Errors(step, data) == map[] <==>
            forall name | name in ShippingFields + CardFields :: FieldError(step, data, name).None?
  {
    if Errors(step, data) == map[] {
      forall name | name in ShippingFields + CardFields
        ensures FieldError(step, data, name).None?
      {
        assert name !in Errors(step, data);
      }
    }
  }

  /** Step 1 passes exactly when every shipping field has a non-white-space
      character and the e-mail matches the pattern. */
  lemma ShippingValidIff(data: FormData)
    ensures Errors(1, data) == map[] <==>
            && (forall name | name in ShippingFields :: !IsBlank(Field(data, name)))
            && MatchesEmailPattern(Field(data, Email))
  {
    ErrorsEmptyIff(1, data);
    if Errors(1, data) == map[] {
      assert FieldError(1, data, Email).None?;
    }
  }

  /** The e-mail gets exactly one error at step 1: required when blank,
      otherwise invalid when the pattern fails. */
  lemma EmailError(data: FormData)
    ensures var errors := Errors(1, data);
      var email := Field(data, Email);
      && (IsBlank(email) ==> Email in errors && errors[Email] == "Email is required")
      && (!IsBlank(email) && !MatchesEmailPattern(email) ==>
            Email in errors && errors[Email] == "Email is invalid")
      && (!IsBlank(email) && MatchesEmailPattern(email) ==> Email !in errors)
  {
  }

  /** Step 2 passes exactly when the method is not the card, or all four
      card fields are non-empty (no trimming and no format check). */
  lemma PaymentValidIff(data: FormData)
    ensures Errors(2, data) == map[] <==>
            || Field(data, PaymentMethod) != "credit-card"
            || forall name | name in CardFields :: Field(data, name) != ""
  {
    ErrorsEmptyIff(2, data);
  }

  /** Four non-empty card fields pass step 2, whatever the method. */
  lemma FilledCardPasses(data: FormData)
    requires forall name | name in CardFields :: |Field(data, name)| > 0
    ensures Errors(2, data) == map[]
  {
    PaymentValidIff(data);
  }

  /** Paying other than by card, step 2 has nothing to check. */
  lemma OtherCardChecksEmpty(data: FormData)
    requires Field(data, PaymentMethod) != "credit-card"
    ensures Errors(2, data) == map[]
  {
    ErrorsEmptyIff(2, data);
  }

  /** Any other step, the review step included, has nothing to check. */
  lemma OtherStepsAlwaysValid(step: int, data: FormData)
    requires step != 1 && step != 2
    ensures Errors(step, data) == map[]
  {
    ErrorsEmptyIff(step, data);
  }

  /** `tax` plus `cartTotal`: a 10% tax and free shipping. */
  function TotalWithTax(subtotal: real): (total: real)
    ensures total == subtotal * 11.0 / 10.0
    ensures subtotal >= 0.0 ==> total >= subtotal
  {
    var tax := subtotal * 0.1;
    subtotal + tax
  }

  datatype ShippingInfo = ShippingInfo(
    name: string, address: string, city: string, state: string, zipCode: string, country: string)

  /** The order summary handed to the confirmation page. */
  datatype Order = Order(orderNumber: int, orderTotal: real, shippingInfo: ShippingInfo)

  /** What the delayed callback closes over: the form fields and the order
      total of the render in which `handleSubmit` ran. */
  datatype PendingOrder = PendingOrder(data: FormData, total: real)

  /** What the page shows. */
  datatype Screen = EmptyCartScreen | ShippingForm | PaymentForm | OrderReview | NoStepScreen

  class CheckoutPage {
    /** The cart, read from the cart context. */
    const cart: Cart
    var formData: FormData
    var formErrors: FormErrors
    var processing: bool
    var step: int

    /** The step stays within 1..3. */
    ghost predicate Valid()
      reads this
    {
      1 <= step <= 3
    }

    constructor (cart: Cart)
      ensures this.cart == cart
      ensures formData == InitialFormData && formErrors == map[]
      ensures !processing && step == 1
      ensures Valid()
    {
      this.cart := cart;
      formData := InitialFormData;
      formErrors := map[];
      processing := false;
      step := 1;
    }

    /** The early return for an empty cart comes before any step is shown. */
    function View(): (screen: Screen)
      reads this
      ensures screen == EmptyCartScreen <==> |cart| == 0
      ensures |cart| > 0 && step == 3 ==> screen == OrderReview
    {
      if |cart| == 0 then EmptyCartScreen
      else if step == 1 then ShippingForm
      else if step == 2 then PaymentForm
      else if step == 3 then OrderReview
      else NoStepScreen
    }

    /** A field edit: sets that field and clears that field's error if it had one. */
    method HandleChange(name: FieldName, value: string)
      requires |cart| > 0
      requires Valid()
      modifies this`formData, this`formErrors
      ensures formData == old(formData)[name := value]
      ensures formErrors == if name in old(formErrors) && old(formErrors)[name] != ""
                            then old(formErrors)[name := ""] else old(formErrors)
      ensures Valid()
    {
      formData := formData[name := value];
      if name in formErrors && formErrors[name] != "" {
        formErrors := formErrors[name := ""];
      }
    }

    /** `validateForm`: replaces the whole error map with the current step's
        errors and reports whether there are none. */
    method ValidateForm() returns (ok: bool)
      modifies this`formErrors
      ensures formErrors == Errors(step, formData)
      ensures ok <==> formErrors == map[]
    {
      var errors: FormErrors := map[];
      if step == 1 {
        errors := RequireNonBlank(errors, formData, FirstName);
        errors := RequireNonBlank(errors, formData, LastName);
        errors := CheckEmail(errors, formData);
        errors := RequireNonBlank(errors, formData, Address);
        errors := RequireNonBlank(errors, formData, City);
        errors := RequireNonBlank(errors, formData, State);
        errors := RequireNonBlank(errors, formData, ZipCode);
        ShippingChecksBuildErrors(formData);
      }
      if step == 2 {
        if Field(formData, PaymentMethod) == "credit-card" {
          errors := RequireNonEmpty(errors, formData, CardNumber);
          errors := RequireNonEmpty(errors, formData, CardName);
          errors := RequireNonEmpty(errors, formData, ExpiryDate);
          errors := RequireNonEmpty(errors, formData, Cvv);
        }
        CardChecksBuildErrors(formData);
      }
      if step != 1 && step != 2 {
        OtherStepsAlwaysValid(step, formData);
      }
      formErrors := errors;
      ok := |errors| == 0;
    }

    /** "Continue": moves one step forward exactly when validation passes. */
    method HandleNextStep()
      requires |cart| > 0 && Valid()
      requires step == 1 || step == 2
      modifies this`formErrors, this`step
      ensures formErrors == Errors(old(step), formData)
      ensures step == if formErrors == map[] then old(step) + 1 else old(step)
      ensures Valid()
    {
      var ok := ValidateForm();
      if ok {
        step := step + 1;
      }
    }

    /** "Back": one step back, unconditionally. */
    method HandlePrevStep()
      requires |cart| > 0 && Valid()
      requires step == 2 || step == 3
      modifies this`step
      ensures step == old(step) - 1
      ensures Valid()
    {
      step := step - 1;
    }

    /** The review step's "Edit" for the shipping information. */
    method EditShipping()
      requires |cart| > 0 && Valid()
      requires step == 3
      modifies this`step
      ensures step == 1 && Valid()
    {
      step := 1;
    }

    /** The review step's "Edit" for the payment information. */
    method EditPayment()
      requires |cart| > 0 && Valid()
      requires step == 3
      modifies this`step
      ensures step == 2 && Valid()
    {
      step := 2;
    }

    /** The "Place Order" button is disabled while a submission is in flight. */
    function PlaceOrderEnabled(): bool
      reads this
    {
      !processing
    }

    /** `handleSubmit`: validates the current step and, when it passes, marks
        a submission in flight and starts the delay, whose callback closes
        over this render's form fields and total. It does not look at
        `processing` itself. */
    method HandleSubmit() returns (pending: Option<PendingOrder>)
      requires |cart| > 0 && Valid()
      modifies this`formErrors, this`processing
      ensures formErrors == Errors(step, formData)
      ensures processing == (old(processing) || formErrors == map[])
      ensures pending.Some? <==> formErrors == map[]
      ensures pending.Some? ==> pending.value == PendingOrder(formData, TotalWithTax(Total(cart)))
      ensures Valid()
    {
      var ok := ValidateForm();
      if ok {
        processing := true;
        pending := Some(PendingOrder(formData, TotalWithTax(Total(cart))));
      } else {
        pending := None;
      }
    }

    /** A press of "Place Order": `handleSubmit` runs only while the button is
        enabled, so a press during a submission changes nothing. */
    method PressPlaceOrder() returns (pending: Option<PendingOrder>)
      requires |cart| > 0 && Valid()
      modifies this`formErrors, this`processing
      ensures old(processing) ==> pending.None? && formErrors == old(formErrors) && processing
      ensures !old(processing) ==>
        && formErrors == Errors(step, formData)
        && processing == (formErrors == map[])
        && (pending.Some? <==> formErrors == map[])
        && (pending.Some? ==> pending.value == PendingOrder(formData, TotalWithTax(Total(cart))))
      ensures Valid()
    {
      if PlaceOrderEnabled() {
        pending := HandleSubmit();
      } else {
        pending := None;
      }
    }

    /** The end of the simulated delay: clears `processing` and builds the
        order from the total and the shipping fields the callback captured at
        submit time, whatever the fields hold now. The order number is the
        random draw, passed in. */
    method CompleteSubmission(pending: PendingOrder, orderNumber: int) returns (order: Order)
      requires 0 <= orderNumber < 1000000
      modifies this`processing
      ensures !processing
      ensures order.orderNumber == orderNumber
      ensures order.orderTotal == pending.total
      ensures order.shippingInfo.name == Field(pending.data, FirstName) + " " + Field(pending.data, LastName)
      ensures order.shippingInfo == ShippingInfo(
                order.shippingInfo.name, Field(pending.data, Address), Field(pending.data, City),
                Field(pending.data, State), Field(pending.data, ZipCode), Field(pending.data, Country))
    {
      processing := false;
      var data := pending.data;
      var info := ShippingInfo(
        Field(data, FirstName) + " " + Field(data, LastName),
        Field(data, Address), Field(data, City), Field(data, State),
        Field(data, ZipCode), Field(data, Country));
      order := Order(orderNumber, pending.total, info);
    }
  }

  /** Edits made while the delay runs do not reach the order: on the review
      step, submit, go back to the shipping form, retype the first name, and
      the order still carries the name from submit time. */
  method EditDuringDelay(page: CheckoutPage) returns (order: Order)
    requires |page.cart| > 0 && page.Valid() && page.step == 3
    modifies page
    ensures order.shippingInfo.name ==
              old(Field(page.formData, FirstName)) + " " + old(Field(page.formData, LastName))
    ensures order.orderTotal == TotalWithTax(Total(page.cart))
    ensures Field(page.formData, FirstName) == "Bob"
  {
    OtherStepsAlwaysValid(3, page.formData);
    var pending := page.HandleSubmit();
    page.EditShipping();
    page.HandleChange(FirstName, "Bob");
    order := page.CompleteSubmission(pending.value, 1);
  }
}
