/** Product eligibility: the per-user cap, the evaluation of one enabling
    condition (chosen by its variant), and the combination of all the
    conditions attached to a product into one admit/deny answer. */
module Controllers {
  import opened Models

  // ---------------------------------------------------------------------
  // Enabling-condition evaluation

  /** The controller object chosen for a condition. */
  datatype ConditionController =
    | BaseController
    | CeilingController(ceiling: EnablingCondition)

  /** A ceiling controller is only ever built around a stock ceiling. */
  predicate ControllerValid(ctl: ConditionController)
  {
    ctl.CeilingController? ==> ctl.ceiling.TimeOrStockLimit?
  }

  /** Dispatch on the condition's variant: stock ceilings get the ceiling
      controller, every other condition the base one. */
  function ForCondition(condition: EnablingCondition): (ctl: ConditionController)
    ensures ControllerValid(ctl)
    ensures ctl.CeilingController? <==> condition.TimeOrStockLimit?
    ensures ctl.CeilingController? ==> ctl.ceiling == condition
  {
    if condition.TimeOrStockLimit? then CeilingController(condition) else BaseController
  }

  /** Whether `condition` admits `quantity` more units of `product` given the
      carts in `carts`: a base condition always does; a ceiling does when the
      product is not one of its products, or when the units of its products
      already in any cart plus `quantity` stay within its limit. */
  predicate ConditionMet(condition: EnablingCondition, carts: seq<Cart>, product: ProductId, quantity: int)
  {
    match condition
    case EnablingConditionBase(_, _) => true
    case TimeOrStockLimit(_, products, limit) =>
      product !in products || Stock(carts, products) + quantity <= limit
  }

  /** The ceiling's own check: count every unit of the ceiling's products in
      every cart, of every user and in any state, and compare with the limit. */
  method CeilingUserCanAdd(ceiling: EnablingCondition, carts: seq<Cart>, user: UserId, product: ProductId, quantity: int)
    returns (met: bool)
    requires ceiling.TimeOrStockLimit?
    ensures product !in ceiling.products ==> met
    ensures product in ceiling.products ==> (met <==> Stock(carts, ceiling.products) + quantity <= ceiling.limit)
  {
    if product !in ceiling.products {
      return true;
    }
    var productItems := SelectItems(carts, ceiling.products);
    var count := 0;
    for i := 0 to |productItems|
      invariant count == Quantities(productItems[..i])
    {
      assert productItems[..i + 1][..i] == productItems[..i];
      count := count + productItems[i].quantity;
    }
    assert productItems[..|productItems|] == productItems;
    SelectItemsTotal(carts, ceiling.products);
    if count + quantity > ceiling.limit {
      return false;
    }
    return true;
  }

  /** `user_can_add` on the controller `ctl`: the base controller always
      admits, the ceiling controller runs the ceiling's check. */
  method UserCanAdd(ctl: ConditionController, carts: seq<Cart>, user: UserId, product: ProductId, quantity: int)
    returns (met: bool)
    requires ControllerValid(ctl)
    ensures ctl.BaseController? ==> met
    ensures ctl.CeilingController? ==> (met <==> ConditionMet(ctl.ceiling, carts, product, quantity))
  {
    match ctl
    case BaseController =>
      met := true;
    case CeilingController(ceiling) =>
      met := CeilingUserCanAdd(ceiling, carts, user, product, quantity);
  }

  /** Evaluate one condition through the controller chosen for it. */
  method Evaluate(condition: EnablingCondition, carts: seq<Cart>, user: UserId, product: ProductId, quantity: int)
    returns (met: bool)
    ensures met <==> ConditionMet(condition, carts, product, quantity)
    ensures condition.EnablingConditionBase? ==> met
  {
    var ctl := ForCondition(condition);
    met := UserCanAdd(ctl, carts, user, product, quantity);
  }

  // ---------------------------------------------------------------------
  // Combining the attached conditions

  /** Some mandatory condition among `conditions` is not met. */
  predicate MandatoryUnmet(conditions: seq<EnablingCondition>, carts: seq<Cart>, product: ProductId, quantity: int)
  {
    exists c :: c in conditions && c.mandatory && !ConditionMet(c, carts, product, quantity)
  }

  /** Some condition among `conditions`, mandatory or not, is met. */
  predicate SomeMet(conditions: seq<EnablingCondition>, carts: seq<Cart>, product: ProductId, quantity: int)
  {
    exists c :: c in conditions && ConditionMet(c, carts, product, quantity)
  }

  /** The combination the controller computes: no mandatory condition fails,
      and when there are conditions at all, at least one of them is met. */
  predicate GatePasses(conditions: seq<EnablingCondition>, carts: seq<Cart>, product: ProductId, quantity: int)
  {
    !MandatoryUnmet(conditions, carts, product, quantity)
    && (|conditions| == 0 || SomeMet(conditions, carts, product, quantity))
  }

  /** Extending the evaluated conditions by one. */
  lemma GateStep(done: seq<EnablingCondition>, c: EnablingCondition, carts: seq<Cart>, product: ProductId, quantity: int)
    ensures MandatoryUnmet(done + [c], carts, product, quantity)
        <==> MandatoryUnmet(done, carts, product, quantity) || (c.mandatory && !ConditionMet(c, carts, product, quantity))
    ensures SomeMet(done + [c], carts, product, quantity)
        <==> SomeMet(done, carts, product, quantity) || ConditionMet(c, carts, product, quantity)
  {
  }

  /** Evaluate every condition attached to `product`, stopping at the first
      mandatory one that is not met. */
  method CanAddWithEnablingConditions(db: Database, product: Product, user: UserId, quantity: int)
    returns (ok: bool)
    ensures ok <==> GatePasses(ConditionsFor(db.conditions, product.id), db.carts, product.id, quantity)
  {
    var conditions := ConditionsFor(db.conditions, product.id);
    var mandatoryViolated := false;
    var nonMandatoryMet := false;

    for i := 0 to |conditions|
      invariant !mandatoryViolated
      invariant !MandatoryUnmet(conditions[..i], db.carts, product.id, quantity)
      invariant nonMandatoryMet <==> SomeMet(conditions[..i], db.carts, product.id, quantity)
    {
      var condition := conditions[i];
      var met := Evaluate(condition, db.carts, user, product.id, quantity);
      assert conditions[..i + 1] == conditions[..i] + [condition];
      GateStep(conditions[..i], condition, db.carts, product.id, quantity);

      if condition.mandatory && !met {
        assert MandatoryUnmet(conditions, db.carts, product.id, quantity) by {
          assert conditions[i] in conditions;
        }
        mandatoryViolated := true;
        break;
      }
      if met {
        nonMandatoryMet := true;
      }
    }

    if mandatoryViolated {
      return false;
    }
    assert conditions[..|conditions|] == conditions;
    if |conditions| > 0 && !nonMandatoryMet {
      return false;
    }
    return true;
  }

  // ---------------------------------------------------------------------
  // The per-user cap

  /** Adding `quantity` units of `product` keeps `user` within the product's
      per-user limit, counting every unit of it in every cart of `user`,
      active or not; reaching the limit exactly is allowed. */
  predicate WithinLimit(carts: seq<Cart>, product: Product, user: UserId, quantity: int)
  {
    quantity + Held(carts, user, product.id) <= product.limitPerUser
  }

  /** Sum the user's items of the product, then compare with the limit. */
  method UserCanAddWithinLimit(db: Database, product: Product, user: UserId, quantity: int)
    returns (ok: bool)
    ensures ok <==> WithinLimit(db.carts, product, user, quantity)
  {
    var carts := CartsOf(db.carts, user);
    var items := SelectItems(carts, {product.id});

    var count := 0;
    for i := 0 to |items|
      invariant count == Quantities(items[..i])
    {
      assert items[..i + 1][..i] == items[..i];
      count := count + items[i].quantity;
    }
    assert items[..|items|] == items;
    SelectItemsTotal(carts, {product.id});
    CartsOfHeld(db.carts, user, product.id);

    if quantity + count > product.limitPerUser {
      return false;
    } else {
      return true;
    }
  }

  // ---------------------------------------------------------------------
  // Properties of the per-user cap

  /** Fewer units are admitted whenever more are; more are refused whenever
      fewer are. */
  lemma WithinLimitMonotone(carts: seq<Cart>, product: Product, user: UserId, q: int, q': int)
    requires q' <= q
    ensures WithinLimit(carts, product, user, q) ==> WithinLimit(carts, product, user, q')
    ensures !WithinLimit(carts, product, user, q') ==> !WithinLimit(carts, product, user, q)
  {
  }

  /** An item of another product, or in another user's cart, never changes
      the answer; an item of the product in one of the user's carts lowers
      the quantity still admitted by exactly its own quantity. */
  lemma WithinLimitWithItem(carts: seq<Cart>, k: nat, it: ProductItem, product: Product, user: UserId, quantity: int)
    requires k < |carts|
    ensures it.product != product.id || carts[k].user != user ==>
      (WithinLimit(WithItem(carts, k, it), product, user, quantity) <==> WithinLimit(carts, product, user, quantity))
    ensures it.product == product.id && carts[k].user == user ==>
      (WithinLimit(WithItem(carts, k, it), product, user, quantity) <==> WithinLimit(carts, product, user, quantity + it.quantity))
  {
    HeldWithItem(carts, k, it, user, product.id);
  }

  /** A cart of another user, inserted anywhere in the history, never
      changes the answer, whatever it holds. */
  lemma WithinLimitIgnoresOtherUsersCart(before: seq<Cart>, c: Cart, after: seq<Cart>, product: Product, user: UserId, quantity: int)
    requires c.user != user
    ensures WithinLimit(before + [c] + after, product, user, quantity) <==> WithinLimit(before + after, product, user, quantity)
  {
    HeldWithCart(before, c, after, user, product.id);
  }

  // ---------------------------------------------------------------------
  // Properties of the condition gate

  /** An unmet mandatory condition vetoes, whatever the other conditions
      are and wherever it stands in the evaluation order. */
  lemma MandatoryVeto(before: seq<EnablingCondition>, c: EnablingCondition, after: seq<EnablingCondition>,
                      carts: seq<Cart>, product: ProductId, quantity: int)
    requires c.mandatory && !ConditionMet(c, carts, product, quantity)
    ensures !GatePasses(before + [c] + after, carts, product, quantity)
  {
  }

  /** A product with no attached condition passes the gate. */
  lemma NoConditionsPass(carts: seq<Cart>, product: ProductId, quantity: int)
    ensures GatePasses([], carts, product, quantity)
  {
  }

  /** With no mandatory failure and at least one condition, the gate passes
      exactly when some condition, mandatory or not, is met. */
  lemma PassesIffSomeMet(conditions: seq<EnablingCondition>, carts: seq<Cart>, product: ProductId, quantity: int)
    requires conditions != []
    requires !MandatoryUnmet(conditions, carts, product, quantity)
    ensures GatePasses(conditions, carts, product, quantity) <==> SomeMet(conditions, carts, product, quantity)
  {
  }

  /** Conditions that are all mandatory and all met admit. */
  lemma AllMandatoryMetPass(conditions: seq<EnablingCondition>, carts: seq<Cart>, product: ProductId, quantity: int)
    requires conditions != []
    requires forall c :: c in conditions ==> c.mandatory && ConditionMet(c, carts, product, quantity)
    ensures GatePasses(conditions, carts, product, quantity)
  {
    assert conditions[0] in conditions;
  }

  /** Conditions that are all optional, none of them met, deny. */
  lemma AllOptionalUnmetFail(conditions: seq<EnablingCondition>, carts: seq<Cart>, product: ProductId, quantity: int)
    requires conditions != []
    requires forall c :: c in conditions ==> !c.mandatory && !ConditionMet(c, carts, product, quantity)
    ensures !GatePasses(conditions, carts, product, quantity)
  {
  }

  /** A met mandatory condition alone satisfies the "one must be met" rule:
      optional conditions that all fail do not deny when a mandatory one is
      met and none fails. */
  lemma MandatoryMetAdmitsWithoutOptional(m: EnablingCondition, optional: seq<EnablingCondition>,
                                          carts: seq<Cart>, product: ProductId, quantity: int)
    requires m.mandatory && ConditionMet(m, carts, product, quantity)
    requires forall c :: c in optional ==> !c.mandatory
    ensures GatePasses([m] + optional, carts, product, quantity)
  {
  }

  /** The gate depends only on which conditions there are, not on their
      order or repetition. */
  lemma GateIgnoresOrder(a: seq<EnablingCondition>, b: seq<EnablingCondition>, carts: seq<Cart>, product: ProductId, quantity: int)
    requires forall c :: c in a <==> c in b
    ensures GatePasses(a, carts, product, quantity) <==> GatePasses(b, carts, product, quantity)
  {
    if a != [] { assert a[0] in b; }
    if b != [] { assert b[0] in a; }
  }

  /** Reordering the condition table never changes the answer for a product. */
  lemma EnablingConditionsIgnoreTableOrder(a: seq<EnablingCondition>, b: seq<EnablingCondition>,
                                           carts: seq<Cart>, product: ProductId, quantity: int)
    requires multiset(a) == multiset(b)
    ensures GatePasses(ConditionsFor(a, product), carts, product, quantity)
        <==> GatePasses(ConditionsFor(b, product), carts, product, quantity)
  {
    forall c ensures c in a <==> c in b {
      assert c in a <==> c in multiset(a);
      assert c in b <==> c in multiset(b);
    }
    ConditionsForMembers(a, product);
    ConditionsForMembers(b, product);
    GateIgnoresOrder(ConditionsFor(a, product), ConditionsFor(b, product), carts, product, quantity);
  }

  /** A stock ceiling attached to the product always takes its counting
      branch: it is met exactly when the stock of its products plus
      `quantity` stays within its limit. */
  lemma AttachedCeilingCountsStock(conditions: seq<EnablingCondition>, c: EnablingCondition,
                                   carts: seq<Cart>, product: ProductId, quantity: int)
    requires c in ConditionsFor(conditions, product) && c.TimeOrStockLimit?
    ensures ConditionMet(c, carts, product, quantity) <==> Stock(carts, c.products) + quantity <= c.limit
  {
  }

  /** A ceiling counts units in every cart: a new item of one of its
      products lowers what it still admits, whoever owns the cart. */
  lemma CeilingCountsEveryCart(carts: seq<Cart>, k: nat, it: ProductItem, ceiling: EnablingCondition,
                               product: ProductId, quantity: int)
    requires k < |carts| && ceiling.TimeOrStockLimit? && product in ceiling.products
    requires it.product in ceiling.products
    ensures ConditionMet(ceiling, WithItem(carts, k, it), product, quantity)
        <==> ConditionMet(ceiling, carts, product, quantity + it.quantity)
  {
    StockWithItem(carts, k, it, ceiling.products);
  }
}
