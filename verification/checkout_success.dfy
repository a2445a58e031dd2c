/** The order confirmation page (`src/pages/CheckoutSuccess.jsx`): entered
    with the order the checkout produced, it empties the cart and its stored
    snapshot; entered without one, it sends the visitor home and shows nothing. */
module CheckoutSuccess {
  import opened Wrappers
  import opened Text
  import opened CartStore
  import opened Checkout
  import opened Catalog

  /** Where the page sends the visitor when it has no order to show. */
  const HomeRoute: string := "/"

  /** The label shown for the payment method. */
  const PaymentLabel: string := "Credit Card"

  /** The confirmation effect. With no order it navigates home and leaves the
      cart and storage alone; with an order it removes the stored snapshot and
      empties the cart, which keeps the store's snapshot invariant. */
  method EnterConfirmation(store: Store, orderDetails: Option<Order>) returns (redirect: Option<string>)
    modifies store
    ensures orderDetails.None? ==>
      && redirect == Some(HomeRoute)
      && store.cart == old(store.cart) && store.storage == old(store.storage)
    ensures orderDetails.Some? ==>
      && redirect == None
      && store.cart == [] && CartKey !in store.storage
      && store.storage == old(store.storage) - {CartKey}
      && store.Valid()
    ensures old(store.Valid()) ==> store.Valid()
  {
    if orderDetails.None? {
      redirect := Some(HomeRoute);
    } else {
      redirect := None;
      store.storage := store.storage - {CartKey};
      store.SetCart([]);
    }
  }

  /** Entering the page twice with an order leaves the same state as entering
      it once: the second pass finds nothing left to clear. */
  method EnterTwice(store: Store, order: Order)
    modifies store
    ensures store.cart == [] && store.storage == old(store.storage) - {CartKey}
  {
    var first := EnterConfirmation(store, Some(order));
    ghost var once := store.storage;
    var second := EnterConfirmation(store, Some(order));
    assert store.storage == once - {CartKey} == once;
  }

  /** The third line of the shipping block: `city, state zipCode`. */
  function CityLine(info: ShippingInfo): string {
    info.city + ", " + info.state + " " + info.zipCode
  }

  /** The text the receipt shows. */
  datatype Receipt = Receipt(
    orderNumber: string, orderTotal: real, paymentMethod: string,
    name: string, address: string, cityLine: string, country: string)

  /** What the page renders: nothing without an order, otherwise a receipt
      whose payment method reads "Credit Card" whatever was chosen. */
  function Render(orderDetails: Option<Order>): (view: Option<Receipt>)
    ensures view.None? <==> orderDetails.None?
    ensures view.Some? ==> view.value.paymentMethod == "Credit Card"
  {
    match orderDetails
    case None => None
    case Some(order) =>
      var info := order.shippingInfo;
      Some(Receipt(IntToString(order.orderNumber), order.orderTotal, PaymentLabel,
                   info.name, info.address, CityLine(info), info.country))
  }

  /** A stored cart is gone after the confirmation, and a reload then starts
      from an empty cart. */
  method ConfirmThenReload(store: Store, order: Order) returns (reloaded: Store)
    modifies store
    ensures fresh(reloaded) && reloaded.cart == []
  {
    var _ := EnterConfirmation(store, Some(order));
    reloaded := new Store(store.storage);
  }

  /** The shipping details the scenario below types over the form `base`. */
  function SampleShipping(base: FormData): FormData {
    base[FirstName := "Ada"][LastName := "Lovelace"][Email := "ada@x.io"]
        [Address := "12 Square"][City := "London"][State := "LDN"][ZipCode := "SW1Y"]
  }

  /** Those shipping details pass step 1, whatever the other fields hold. */
  lemma SampleShippingPasses(base: FormData)
    ensures Errors(1, SampleShipping(base)) == map[]
  {
    var data := SampleShipping(base);
    assert Field(data, FirstName) == "Ada" && Field(data, LastName) == "Lovelace";
    assert Field(data, Email) == "ada@x.io" && Field(data, Address) == "12 Square";
    assert Field(data, City) == "London" && Field(data, State) == "LDN";
    assert Field(data, ZipCode) == "SW1Y";
    forall name | name in ShippingFields ensures !IsBlank(Field(data, name)) {
      assert !IsSpace(Field(data, name)[0]);
    }
    assert EmailMatchAt(Field(data, Email), 0, 3, 5, 8);
    ShippingValidIff(data);
  }

  /** Types the scenario's shipping details and presses "Continue". */
  method FillShipping(page: CheckoutPage)
    requires |page.cart| > 0 && page.Valid() && page.step == 1
    modifies page
    ensures page.Valid() && page.step == 2
  {
    ghost var base := page.formData;
    page.HandleChange(FirstName, "Ada");
    page.HandleChange(LastName, "Lovelace");
    page.HandleChange(Email, "ada@x.io");
    page.HandleChange(Address, "12 Square");
    page.HandleChange(City, "London");
    page.HandleChange(State, "LDN");
    page.HandleChange(ZipCode, "SW1Y");
    SampleShippingPasses(base);
    page.HandleNextStep();
  }

  /** Types four card fields and presses "Continue". */
  method FillCard(page: CheckoutPage)
    requires |page.cart| > 0 && page.Valid() && page.step == 2
    modifies page
    ensures page.Valid() && page.step == 3
  {
    page.HandleChange(CardNumber, "4111");
    page.HandleChange(CardName, "Ada");
    page.HandleChange(ExpiryDate, "12/30");
    page.HandleChange(Cvv, "123");
    assert forall name | name in CardFields :: |Field(page.formData, name)| > 0;
    FilledCardPasses(page.formData);
    page.HandleNextStep();
  }

  /** Presses "Place Order" on the review step and lets the delay elapse. */
  method PlaceOrder(page: CheckoutPage, orderNumber: int) returns (order: Order)
    requires |page.cart| > 0 && page.Valid() && page.step == 3
    requires 0 <= orderNumber < 1000000
    modifies page
    ensures order.orderTotal == TotalWithTax(Total(page.cart))
  {
    OtherStepsAlwaysValid(3, page.formData);
    var pending := page.HandleSubmit();
    order := page.CompleteSubmission(pending.value, orderNumber);
  }

  /** A one-line cart with subtotal 100 goes through the three steps, places
      an order of 110, and the confirmation empties the cart. */
  method HundredOrderScenario() returns (order: Order, cartAfter: Cart)
    ensures order.orderTotal == 110.0 && cartAfter == []
  {
    var p := Product(1, "Watch", 100.0, "", "jewelery", "", Rating(4.0, 10));
    var store := new Store(map[]);
    store.AddToCart(p, 1);
    assert store.cart == [LineItem(p, 1)];
    assert Total(store.cart) == Total([]) + Amount(LineItem(p, 1)) == 100.0;

    var page := new CheckoutPage(store.cart);
    FillShipping(page);
    FillCard(page);
    order := PlaceOrder(page, 4242);
    assert order.orderTotal == 110.0;

    var redirect := EnterConfirmation(store, Some(order));
    assert redirect == None && CartKey !in store.storage;
    cartAfter := store.cart;
  }
}
