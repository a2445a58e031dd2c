/** The cart store of `src/App.jsx`: the list of cart lines, its write-through
    copy under the storage key `'cart'`, and the two derived sums. The three
    mutations are functions on cart values (`Added`, `Removed`, `Updated`),
    which the `Store` methods apply to the `cart` field before writing the
    new cart to `storage`. */
module CartStore {
  import opened Wrappers
  import opened Seqs
  import opened Catalog

  /** A cart line: the product snapshot taken when it was first added, and a
      quantity. */
  datatype LineItem = LineItem(product: Product, quantity: int)

  type Cart = seq<LineItem>

  /** Durable key-value storage. Its values are serialized carts; serializing
      and parsing are the identity here. */
  type Storage = map<string, Cart>

  const CartKey: string := "cart"

  function LineId(line: LineItem): int {
    line.product.id
  }

  /** At most one line per product id. */
  predicate UniqueIds(cart: Cart) {
    DistinctBy(cart, LineId)
  }

  /** Some line carries product id `id`. */
  predicate HasLine(cart: Cart, id: int) {
    exists i | 0 <= i < |cart| :: LineId(cart[i]) == id
  }

  /** `cart.find(item => item.id === id)`: the first line with that id. */
  function FindLine(cart: Cart, id: int): (r: Option<LineItem>)
    ensures r.Some? <==> HasLine(cart, id)
    ensures r.Some? ==> r.value in cart && LineId(r.value) == id
  {
    if cart == [] then None
    else if LineId(cart[0]) == id then Some(cart[0])
    else
      assert forall i | 0 < i < |cart| :: cart[i] == cart[1..][i - 1];
      FindLine(cart[1..], id)
  }

  // ----- The three mutations, on cart values -----

  /** `{ ...item, quantity: item.quantity + delta }` for the lines with id `id`. */
  function Bump(cart: Cart, id: int, delta: int): (r: Cart)
    ensures |r| == |cart|
    ensures forall i | 0 <= i < |cart| :: r[i].product == cart[i].product
    ensures forall i | 0 <= i < |cart| && LineId(cart[i]) != id :: r[i] == cart[i]
  {
    seq(|cart|, i requires 0 <= i < |cart| =>
      if LineId(cart[i]) == id then cart[i].(quantity := cart[i].quantity + delta) else cart[i])
  }

  /** `{ ...item, quantity }` for the lines with id `id`. */
  function Requantify(cart: Cart, id: int, quantity: int): (r: Cart)
    ensures |r| == |cart|
    ensures forall i | 0 <= i < |cart| :: r[i].product == cart[i].product
    ensures forall i | 0 <= i < |cart| && LineId(cart[i]) != id :: r[i] == cart[i]
  {
    seq(|cart|, i requires 0 <= i < |cart| =>
      if LineId(cart[i]) == id then cart[i].(quantity := quantity) else cart[i])
  }

  /** The cart after `addToCart(product, quantity)`: the matching line's
      quantity is raised, or a new line is appended. No check on `quantity`. */
  function Added(cart: Cart, product: Product, quantity: int): (r: Cart)
    ensures |r| == if HasLine(cart, product.id) then |cart| else |cart| + 1
    ensures forall i | 0 <= i < |cart| :: LineId(r[i]) == LineId(cart[i])
  {
    match FindLine(cart, product.id)
    case Some(_) => Bump(cart, product.id, quantity)
    case None => cart + [LineItem(product, quantity)]
  }

  /** The cart after `removeFromCart(id)`: `cart.filter(item => item.id !== id)`. */
  function Removed(cart: Cart, id: int): (r: Cart)
    ensures !HasLine(r, id)
    ensures forall i | 0 <= i < |cart| && LineId(cart[i]) != id :: cart[i] in r
    ensures forall i | 0 <= i < |r| :: r[i] in cart
  {
    Filter(cart, line => LineId(line) != id)
  }

  /** The cart after `updateQuantity(id, quantity)`. */
  function Updated(cart: Cart, id: int, quantity: int): (r: Cart)
    ensures quantity <= 0 ==> !HasLine(r, id)
    ensures quantity > 0 ==> |r| == |cart| && forall i | 0 <= i < |cart| :: LineId(r[i]) == LineId(cart[i])
  {
    if quantity <= 0 then Removed(cart, id) else Requantify(cart, id, quantity)
  }

  // ----- Derived sums -----

  /** Every line has a non-negative price and quantity. */
  predicate NonNegativeLines(cart: Cart) {
    forall i | 0 <= i < |cart| :: cart[i].product.price >= 0.0 && cart[i].quantity >= 0
  }

  function Amount(line: LineItem): real {
    line.product.price * line.quantity as real
  }

  /** `cart.reduce((total, item) => total + item.price * item.quantity, 0)`. */
  function Total(cart: Cart): real {
    if cart == [] then 0.0 else Total(cart[..|cart| - 1]) + Amount(cart[|cart| - 1])
  }

  /** `cart.reduce((count, item) => count + item.quantity, 0)`. */
  function ItemCount(cart: Cart): int {
    if cart == [] then 0 else ItemCount(cart[..|cart| - 1]) + cart[|cart| - 1].quantity
  }

  /** With no negative price or quantity, neither sum is negative. */
  lemma {:induction false} SumsNonNegative(cart: Cart)
    ensures NonNegativeLines(cart) ==> Total(cart) >= 0.0 && ItemCount(cart) >= 0
  {
    if cart != [] && NonNegativeLines(cart) {
      var n := |cart| - 1;
      SumsNonNegative(cart[..n]);
      assert Amount(cart[n]) >= 0.0;
    }
  }

  /** When every line holds at least one unit, the count is at least the
      number of lines. */
  lemma {:induction false} ItemCountAtLeastLines(cart: Cart)
    ensures (forall i | 0 <= i < |cart| :: cart[i].quantity >= 1) ==> ItemCount(cart) >= |cart|
  {
    if cart != [] && forall i | 0 <= i < |cart| :: cart[i].quantity >= 1 {
      ItemCountAtLeastLines(cart[..|cart| - 1]);
    }
  }

  // ----- What the mutations do -----

  /** Adding a product that is not in the cart appends exactly one line at
      the end and raises the sums by that line alone. */
  lemma AddedAbsent(cart: Cart, product: Product, quantity: int)
    requires !HasLine(cart, product.id)
    ensures Added(cart, product, quantity) == cart + [LineItem(product, quantity)]
    ensures Total(Added(cart, product, quantity)) == Total(cart) + product.price * quantity as real
    ensures ItemCount(Added(cart, product, quantity)) == ItemCount(cart) + quantity
  {
    var r := cart + [LineItem(product, quantity)];
    assert r[..|r| - 1] == cart;
  }

  /** Adding a product already in the cart (at index `k`) raises that line's
      quantity by `quantity`, keeps its position and its stored product (the
      price is not refreshed), leaves every other line as it was, and raises
      the sums by the stored price times `quantity` and by `quantity`. */
  lemma AddedPresent(cart: Cart, product: Product, quantity: int, k: int)
    requires UniqueIds(cart)
    requires 0 <= k < |cart| && LineId(cart[k]) == product.id
    ensures var r := Added(cart, product, quantity);
      && |r| == |cart|
      && r[k] == LineItem(cart[k].product, cart[k].quantity + quantity)
      && (forall i | 0 <= i < |cart| && i != k :: r[i] == cart[i])
      && Total(r) == Total(cart) + cart[k].product.price * quantity as real
      && ItemCount(r) == ItemCount(cart) + quantity
  {
    assert HasLine(cart, product.id);
    BumpTotal(cart, product.id, quantity, k);
    BumpItemCount(cart, product.id, quantity, k);
  }

  /** `Bump` works line by line, so it commutes with dropping the last line. */
  lemma BumpPrefix(cart: Cart, id: int, delta: int)
    requires cart != []
    ensures Bump(cart, id, delta)[..|cart| - 1] == Bump(cart[..|cart| - 1], id, delta)
  {
  }

  /** Bumping an id no line carries changes nothing. */
  lemma BumpAbsent(cart: Cart, id: int, delta: int)
    requires !HasLine(cart, id)
    ensures Bump(cart, id, delta) == cart
  {
  }

  /** In a cart with distinct ids, the lines before the last one with id
      `id` carry no line with that id, and the lines before any other line
      keep distinct ids. */
  lemma UniquePrefix(cart: Cart, id: int, k: int)
    requires UniqueIds(cart)
    requires 0 <= k < |cart| && LineId(cart[k]) == id
    ensures var n := |cart| - 1;
      && UniqueIds(cart[..n])
      && (k == n ==> !HasLine(cart[..n], id))
      && (k < n ==> LineId(cart[n]) != id)
  {
    var n := |cart| - 1;
    assert forall i | 0 <= i < n :: cart[..n][i] == cart[i];
  }

  /** Bumping the one line with id `id` changes the total by that line's
      price times `delta`. */
  lemma {:induction false} BumpTotal(cart: Cart, id: int, delta: int, k: int)
    requires UniqueIds(cart)
    requires 0 <= k < |cart| && LineId(cart[k]) == id
    ensures Total(Bump(cart, id, delta)) == Total(cart) + cart[k].product.price * delta as real
  {
    var n := |cart| - 1;
    var r := Bump(cart, id, delta);
    BumpPrefix(cart, id, delta);
    UniquePrefix(cart, id, k);
    assert Total(r) == Total(Bump(cart[..n], id, delta)) + Amount(r[n]);
    if k == n {
      BumpAbsent(cart[..n], id, delta);
      var p, q := cart[n].product.price, cart[n].quantity;
      assert Amount(r[n]) == p * (q + delta) as real;
      assert p * (q + delta) as real == p * q as real + p * delta as real;
    } else {
      assert r[n] == cart[n];
      BumpTotal(cart[..n], id, delta, k);
    }
  }

  /** Bumping the one line with id `id` changes the unit count by `delta`. */
  lemma {:induction false} BumpItemCount(cart: Cart, id: int, delta: int, k: int)
    requires UniqueIds(cart)
    requires 0 <= k < |cart| && LineId(cart[k]) == id
    ensures ItemCount(Bump(cart, id, delta)) == ItemCount(cart) + delta
  {
    var n := |cart| - 1;
    var r := Bump(cart, id, delta);
    BumpPrefix(cart, id, delta);
    UniquePrefix(cart, id, k);
    assert ItemCount(r) == ItemCount(Bump(cart[..n], id, delta)) + r[n].quantity;
    if k == n {
      BumpAbsent(cart[..n], id, delta);
    } else {
      assert r[n] == cart[n];
      BumpItemCount(cart[..n], id, delta, k);
    }
  }

  /** `removeFromCart(id)` keeps the other lines in their order. */
  lemma RemovedKeepsOrder(cart: Cart, id: int)
    ensures IsSubsequence(Removed(cart, id), cart)
  {
    FilterIsSubsequence(cart, line => LineId(line) != id);
  }

  /** Removing an id that is not in the cart leaves it as it was. */
  lemma RemovedAbsent(cart: Cart, id: int)
    requires !HasLine(cart, id)
    ensures Removed(cart, id) == cart
  {
    FilterKeepsAll(cart, line => LineId(line) != id);
  }

  /** With a positive quantity, `updateQuantity` replaces (does not add to)
      the matching line's quantity and changes nothing else; with an absent
      id it leaves the cart as it was. */
  lemma UpdatedPositive(cart: Cart, id: int, quantity: int)
    requires quantity > 0
    ensures var r := Updated(cart, id, quantity);
      && |r| == |cart|
      && (forall i | 0 <= i < |cart| && LineId(cart[i]) == id ::
            r[i] == LineItem(cart[i].product, quantity))
      && (forall i | 0 <= i < |cart| && LineId(cart[i]) != id :: r[i] == cart[i])
      && (!HasLine(cart, id) ==> r == cart)
  {
  }

  // ----- Unique ids -----

  lemma AddedKeepsUnique(cart: Cart, product: Product, quantity: int)
    requires UniqueIds(cart)
    ensures UniqueIds(Added(cart, product, quantity))
  {
    var r := Added(cart, product, quantity);
    if !HasLine(cart, product.id) {
      forall i, j | 0 <= i < j < |r| ensures LineId(r[i]) != LineId(r[j]) {
        if j == |cart| {
          assert r[i] == cart[i];
        }
      }
    }
  }

  lemma RemovedKeepsUnique(cart: Cart, id: int)
    requires UniqueIds(cart)
    ensures UniqueIds(Removed(cart, id))
  {
    FilterKeepsDistinct(cart, line => LineId(line) != id, LineId);
  }

  lemma UpdatedKeepsUnique(cart: Cart, id: int, quantity: int)
    requires UniqueIds(cart)
    ensures UniqueIds(Updated(cart, id, quantity))
  {
    if quantity <= 0 {
      RemovedKeepsUnique(cart, id);
    }
  }

  /** One call on the cart store. */
  datatype CartOp =
    | AddOp(product: Product, quantity: int)
    | RemoveOp(id: int)
    | UpdateOp(id: int, quantity: int)

  function Apply(cart: Cart, op: CartOp): Cart {
    match op
    case AddOp(p, q) => Added(cart, p, q)
    case RemoveOp(id) => Removed(cart, id)
    case UpdateOp(id, q) => Updated(cart, id, q)
  }

  function ApplyAll(cart: Cart, ops: seq<CartOp>): Cart
    decreases |ops|
  {
    if ops == [] then cart else ApplyAll(Apply(cart, ops[0]), ops[1..])
  }

  /** After any sequence of calls, no two lines share a product id. */
  lemma {:induction false} ApplyAllKeepsUnique(cart: Cart, ops: seq<CartOp>)
    requires UniqueIds(cart)
    ensures UniqueIds(ApplyAll(cart, ops))
    decreases |ops|
  {
    if ops != [] {
      match ops[0] {
        case AddOp(p, q) => AddedKeepsUnique(cart, p, q);
        case RemoveOp(id) => RemovedKeepsUnique(cart, id);
        case UpdateOp(id, q) => UpdatedKeepsUnique(cart, id, q);
      }
      ApplyAllKeepsUnique(Apply(cart, ops[0]), ops[1..]);
    }
  }

  /** The cart the lazy initialiser starts from: the stored snapshot, or empty. */
  function Rehydrate(saved: Storage): Cart {
    if CartKey in saved then saved[CartKey] else []
  }

  /** The cart context: the cart and its durable copy. */
  class Store {
    var cart: Cart
    var storage: Storage

    /** The stored snapshot is the cart; with no snapshot the cart is empty. */
    ghost predicate Valid()
      reads this
    {
      if CartKey in storage then storage[CartKey] == cart else cart == []
    }

    constructor (saved: Storage)
      ensures storage == saved && cart == Rehydrate(saved)
      ensures Valid()
    {
      storage := saved;
      cart := Rehydrate(saved);
    }

    /** `cartTotal`, recomputed from the current cart. */
    function CartTotal(): (total: real)
      reads this
      ensures |cart| == 0 ==> total == 0.0
      ensures NonNegativeLines(cart) ==> total >= 0.0
    {
      SumsNonNegative(cart);
      Total(cart)
    }

    /** `cartItemCount`, the unit count the cart page shows as "Items (N)",
        recomputed from the current cart. */
    function CartItemCount(): (count: int)
      reads this
      ensures |cart| == 0 ==> count == 0
      ensures (forall i | 0 <= i < |cart| :: cart[i].quantity >= 1) ==> count >= |cart|
    {
      ItemCountAtLeastLines(cart);
      ItemCount(cart)
    }

    method AddToCart(product: Product, quantity: int := 1)
      modifies this
      ensures cart == Added(old(cart), product, quantity)
      ensures storage == old(storage)[CartKey := cart]
      ensures Valid()
      ensures old(UniqueIds(cart)) ==> UniqueIds(cart)
    {
      var newCart := Added(cart, product, quantity);
      if UniqueIds(cart) {
        AddedKeepsUnique(cart, product, quantity);
      }
      storage := storage[CartKey := newCart];
      cart := newCart;
    }

    method RemoveFromCart(id: int)
      modifies this
      ensures cart == Removed(old(cart), id)
      ensures storage == old(storage)[CartKey := cart]
      ensures Valid()
      ensures old(UniqueIds(cart)) ==> UniqueIds(cart)
    {
      var newCart := Removed(cart, id);
      if UniqueIds(cart) {
        RemovedKeepsUnique(cart, id);
      }
      storage := storage[CartKey := newCart];
      cart := newCart;
    }

    method UpdateQuantity(id: int, quantity: int)
      modifies this
      ensures cart == Updated(old(cart), id, quantity)
      ensures storage == old(storage)[CartKey := cart]
      ensures Valid()
      ensures old(UniqueIds(cart)) ==> UniqueIds(cart)
    {
      if quantity <= 0 {
        RemoveFromCart(id);
        return;
      }
      var newCart := Requantify(cart, id, quantity);
      if UniqueIds(cart) {
        UpdatedKeepsUnique(cart, id, quantity);
      }
      storage := storage[CartKey := newCart];
      cart := newCart;
    }

    /** The raw `setCart` the context also exposes: no storage write. */
    method SetCart(newCart: Cart)
      modifies this`cart
      ensures cart == newCart
    {
      cart := newCart;
    }
  }

  /** Reloading from storage after a mutation gives back the same cart. */
  method Reload(store: Store) returns (reloaded: Store)
    requires store.Valid()
    ensures fresh(reloaded) && reloaded.cart == store.cart && reloaded.storage == store.storage
  {
    reloaded := new Store(store.storage);
  }

  /** Add, add again, remove: a single line whose quantity accumulates, then
      an empty cart. */
  method AddAddRemoveScenario() {
    var store := new Store(map[]);
    var p := Product(1, "Backpack", 10.0, "", "bags", "", Rating(4.0, 120));
    AddTwice(store, p);
    store.RemoveFromCart(1);
    assert store.cart == [] && store.CartTotal() == 0.0;
    assert store.storage == map[CartKey := []];
  }

  /** Adding one and then two of a product to an empty cart gives one line of
      three, and the sums follow. */
  method AddTwice(store: Store, p: Product)
    requires store.cart == [] && store.storage == map[] && p.id == 1 && p.price == 10.0
    modifies store
    ensures store.cart == [LineItem(p, 3)] && store.storage == map[CartKey := store.cart]
    ensures store.CartTotal() == 30.0 && store.CartItemCount() == 3
  {
    store.AddToCart(p, 1);
    assert store.cart == [LineItem(p, 1)];
    assert Total([LineItem(p, 1)]) == Total([]) + Amount(LineItem(p, 1));
    assert ItemCount([LineItem(p, 1)]) == ItemCount([]) + 1;
    assert store.CartTotal() == 10.0 && store.CartItemCount() == 1;
    store.AddToCart(p, 2);
    assert store.cart == [LineItem(p, 3)] && store.cart[..0] == [];
  }

  /** The cart page's minus button on a line of quantity 1 removes the line;
      its plus button adds one. */
  method CartPageButtonsScenario() {
    var p := Product(7, "Lamp", 25.0, "", "home", "", Rating(3.5, 10));
    var store := new Store(map[CartKey := [LineItem(p, 1)]]);
    store.UpdateQuantity(7, store.cart[0].quantity + 1);
    assert store.cart == [LineItem(p, 2)];
    store.UpdateQuantity(7, store.cart[0].quantity - 1);
    store.UpdateQuantity(7, store.cart[0].quantity - 1);
    assert store.cart == [] && store.storage[CartKey] == [];
  }
}
