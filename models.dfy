/** Registration data model: products, carts and the product items in them, and
    the enabling conditions attached to products. The database is a read-only
    snapshot value; the queries the controllers issue against it are functions
    here, and the quantity totals they feed are specified by independent
    recursive definitions, tied to the queries by lemmas. */
module Models {

  type UserId = nat
  type ProductId = nat

  /** A product on sale, with the most units one user may hold of it. */
  datatype Product = Product(id: ProductId, limitPerUser: int)

  /** One line of a cart: `quantity` units of `product`. */
  datatype ProductItem = ProductItem(product: ProductId, quantity: int)

  /** A cart owned by `user`. Carts that are no longer active are kept and
      still count as the user's. */
  datatype Cart = Cart(user: UserId, active: bool, items: seq<ProductItem>)

  /** An enabling condition, attached to the products in `products`.
      A stock ceiling also caps the total number of units of those products
      sold to anybody at `limit`. */
  datatype EnablingCondition =
    | EnablingConditionBase(mandatory: bool, products: set<ProductId>)
    | TimeOrStockLimit(mandatory: bool, products: set<ProductId>, limit: int)

  /** The rows of the tables the controllers read. */
  datatype Database = Database(carts: seq<Cart>, conditions: seq<EnablingCondition>)

  // ---------------------------------------------------------------------
  // Queries

  /** The carts of `user`, in table order (`Cart.objects.filter(user=user)`). */
  function CartsOf(carts: seq<Cart>, user: UserId): (r: seq<Cart>)
    ensures forall c :: c in r <==> c in carts && c.user == user
    ensures forall c :: multiset(r)[c] == if c.user == user then multiset(carts)[c] else 0
  {
    if carts == [] then []
    else
      assert carts == [carts[0]] + carts[1..];
      (if carts[0].user == user then [carts[0]] else []) + CartsOf(carts[1..], user)
  }

  /** The items of `items` whose product is in `ps`. */
  function ItemsIn(items: seq<ProductItem>, ps: set<ProductId>): (r: seq<ProductItem>)
    ensures forall it :: it in r <==> it in items && it.product in ps
    ensures forall it :: multiset(r)[it] == if it.product in ps then multiset(items)[it] else 0
  {
    if items == [] then []
    else
      assert items == [items[0]] + items[1..];
      (if items[0].product in ps then [items[0]] else []) + ItemsIn(items[1..], ps)
  }

  /** The product items of the given carts whose product is in `ps`
      (`ProductItem.objects.filter(product=..., cart=...)`). */
  function SelectItems(carts: seq<Cart>, ps: set<ProductId>): (r: seq<ProductItem>)
    ensures forall it :: it in r <==> it.product in ps && exists c :: c in carts && it in c.items
  {
    if carts == [] then [] else ItemsIn(carts[0].items, ps) + SelectItems(carts[1..], ps)
  }

  /** The conditions attached to `p` (`EnablingConditionBase.objects.filter(products=p)`). */
  function ConditionsFor(conditions: seq<EnablingCondition>, p: ProductId): seq<EnablingCondition>
  {
    if conditions == [] then []
    else (if p in conditions[0].products then [conditions[0]] else []) + ConditionsFor(conditions[1..], p)
  }

  /** The conditions attached to `p` are exactly those whose products include `p`. */
  lemma {:induction false} ConditionsForMembers(conditions: seq<EnablingCondition>, p: ProductId)
    ensures forall c :: c in ConditionsFor(conditions, p) <==> c in conditions && p in c.products
  {
    if conditions != [] {
      ConditionsForMembers(conditions[1..], p);
      assert conditions == [conditions[0]] + conditions[1..];
    }
  }

  // ---------------------------------------------------------------------
  // Totals

  /** Sum of the quantities of `items`, accumulated front to back. */
  function Quantities(items: seq<ProductItem>): int
  {
    if items == [] then 0 else Quantities(items[..|items| - 1]) + items[|items| - 1].quantity
  }

  /** Units of the products in `ps` held in `items`. */
  function ItemTotal(items: seq<ProductItem>, ps: set<ProductId>): int
  {
    if items == [] then 0
    else (if items[0].product in ps then items[0].quantity else 0) + ItemTotal(items[1..], ps)
  }

  /** Units of product `p` in all the carts of `user`, active or not. */
  function Held(carts: seq<Cart>, user: UserId, p: ProductId): int
  {
    if carts == [] then 0
    else (if carts[0].user == user then ItemTotal(carts[0].items, {p}) else 0) + Held(carts[1..], user, p)
  }

  /** Units of the products in `ps` in every cart of every user, whatever its state. */
  function Stock(carts: seq<Cart>, ps: set<ProductId>): int
  {
    if carts == [] then 0 else ItemTotal(carts[0].items, ps) + Stock(carts[1..], ps)
  }

  /** The database after `it` is added to the items of cart `k`. */
  function WithItem(carts: seq<Cart>, k: nat, it: ProductItem): (r: seq<Cart>)
    requires k < |carts|
    ensures |r| == |carts| && r[k].user == carts[k].user && r[k].items == carts[k].items + [it]
    ensures forall j :: 0 <= j < |carts| && j != k ==> r[j] == carts[j]
  {
    carts[k := carts[k].(items := carts[k].items + [it])]
  }

  // ---------------------------------------------------------------------
  // The queries deliver the totals

  lemma {:induction false} QuantitiesAppend(a: seq<ProductItem>, b: seq<ProductItem>)
    ensures Quantities(a + b) == Quantities(a) + Quantities(b)
  {
    if b != [] {
      assert (a + b)[..|a + b| - 1] == a + b[..|b| - 1];
      QuantitiesAppend(a, b[..|b| - 1]);
    } else {
      assert a + b == a;
    }
  }

  lemma {:induction false} ItemsInTotal(items: seq<ProductItem>, ps: set<ProductId>)
    ensures Quantities(ItemsIn(items, ps)) == ItemTotal(items, ps)
  {
    if items != [] {
      var head := if items[0].product in ps then [items[0]] else [];
      assert Quantities(head) == (if items[0].product in ps then items[0].quantity else 0) by {
        if head != [] { assert head[..0] == []; }
      }
      QuantitiesAppend(head, ItemsIn(items[1..], ps));
      ItemsInTotal(items[1..], ps);
    }
  }

  /** Summing the selected items gives the stock of the selected products. */
  lemma {:induction false} SelectItemsTotal(carts: seq<Cart>, ps: set<ProductId>)
    ensures Quantities(SelectItems(carts, ps)) == Stock(carts, ps)
  {
    if carts != [] {
      QuantitiesAppend(ItemsIn(carts[0].items, ps), SelectItems(carts[1..], ps));
      ItemsInTotal(carts[0].items, ps);
      SelectItemsTotal(carts[1..], ps);
    }
  }

  /** Restricting to the carts of `user` and counting `p` gives what `user` holds of `p`. */
  lemma {:induction false} CartsOfHeld(carts: seq<Cart>, user: UserId, p: ProductId)
    ensures Stock(CartsOf(carts, user), {p}) == Held(carts, user, p)
  {
    if carts != [] {
      CartsOfHeld(carts[1..], user, p);
      if carts[0].user == user {
        var r := CartsOf(carts, user);
        assert r[0] == carts[0] && r[1..] == CartsOf(carts[1..], user);
      } else {
        assert CartsOf(carts, user) == CartsOf(carts[1..], user);
      }
    }
  }

  // ---------------------------------------------------------------------
  // How the totals respond to changes in the history

  lemma {:induction false} ItemTotalAppend(items: seq<ProductItem>, it: ProductItem, ps: set<ProductId>)
    ensures ItemTotal(items + [it], ps) == ItemTotal(items, ps) + (if it.product in ps then it.quantity else 0)
  {
    if items == [] {
      assert ([] + [it])[1..] == [];
    } else {
      assert (items + [it])[1..] == items[1..] + [it];
      ItemTotalAppend(items[1..], it, ps);
    }
  }

  /** Adding an item changes what `user` holds of `p` exactly when the item is
      of `p` and goes into one of `user`'s carts, and then by its quantity. */
  lemma {:induction false} HeldWithItem(carts: seq<Cart>, k: nat, it: ProductItem, user: UserId, p: ProductId)
    requires k < |carts|
    ensures Held(WithItem(carts, k, it), user, p)
         == Held(carts, user, p) + (if carts[k].user == user && it.product == p then it.quantity else 0)
  {
    var r := WithItem(carts, k, it);
    ItemTotalAppend(carts[k].items, it, {p});
    if k == 0 {
      assert r[1..] == carts[1..];
    } else {
      assert r[1..] == WithItem(carts[1..], k - 1, it);
      HeldWithItem(carts[1..], k - 1, it, user, p);
    }
  }

  /** Adding an item changes the stock of `ps` exactly when its product is in
      `ps`, whoever owns the cart and whatever state the cart is in. */
  lemma {:induction false} StockWithItem(carts: seq<Cart>, k: nat, it: ProductItem, ps: set<ProductId>)
    requires k < |carts|
    ensures Stock(WithItem(carts, k, it), ps)
         == Stock(carts, ps) + (if it.product in ps then it.quantity else 0)
  {
    var r := WithItem(carts, k, it);
    ItemTotalAppend(carts[k].items, it, ps);
    if k == 0 {
      assert r[1..] == carts[1..];
    } else {
      assert r[1..] == WithItem(carts[1..], k - 1, it);
      StockWithItem(carts[1..], k - 1, it, ps);
    }
  }

  lemma {:induction false} HeldAppend(a: seq<Cart>, b: seq<Cart>, user: UserId, p: ProductId)
    ensures Held(a + b, user, p) == Held(a, user, p) + Held(b, user, p)
  {
    if a == [] {
      assert a + b == b;
    } else {
      assert (a + b)[1..] == a[1..] + b;
      HeldAppend(a[1..], b, user, p);
    }
  }

  lemma {:induction false} StockAppend(a: seq<Cart>, b: seq<Cart>, ps: set<ProductId>)
    ensures Stock(a + b, ps) == Stock(a, ps) + Stock(b, ps)
  {
    if a == [] {
      assert a + b == b;
    } else {
      assert (a + b)[1..] == a[1..] + b;
      StockAppend(a[1..], b, ps);
    }
  }

  /** A cart inserted anywhere in the history adds its units of `p` to what
      `user` holds when `user` owns it, and nothing otherwise. */
  lemma HeldWithCart(before: seq<Cart>, c: Cart, after: seq<Cart>, user: UserId, p: ProductId)
    ensures Held(before + [c] + after, user, p)
         == Held(before + after, user, p) + (if c.user == user then ItemTotal(c.items, {p}) else 0)
  {
    HeldAppend(before + [c], after, user, p);
    HeldAppend(before, [c], user, p);
    HeldAppend(before, after, user, p);
    assert [c][1..] == [];
  }

  /** A cart inserted anywhere in the history adds its units of `ps` to the
      stock, whoever owns it. */
  lemma StockWithCart(before: seq<Cart>, c: Cart, after: seq<Cart>, ps: set<ProductId>)
    ensures Stock(before + [c] + after, ps) == Stock(before + after, ps) + ItemTotal(c.items, ps)
  {
    StockAppend(before + [c], after, ps);
    StockAppend(before, [c], ps);
    StockAppend(before, after, ps);
    assert [c][1..] == [];
  }

  /** Whether a cart is active plays no part in either total. */
  lemma {:induction false} TotalsIgnoreActive(carts: seq<Cart>, k: nat, active: bool, user: UserId, ps: set<ProductId>, p: ProductId)
    requires k < |carts|
    ensures Held(carts[k := carts[k].(active := active)], user, p) == Held(carts, user, p)
    ensures Stock(carts[k := carts[k].(active := active)], ps) == Stock(carts, ps)
  {
    var r := carts[k := carts[k].(active := active)];
    if k == 0 {
      assert r[1..] == carts[1..];
    } else {
      assert r[1..] == carts[1..][k - 1 := carts[k].(active := active)];
      TotalsIgnoreActive(carts[1..], k - 1, active, user, ps, p);
    }
  }
}
