# Product eligibility in symposion's registration app

This project models the part of symposion's registration app that decides
whether a user may add a given quantity of a product to their cart. Two
independent checks make that decision:

- **Per-user cap** (`ProductController.user_can_add_within_limit`). The
  requested quantity plus every unit of the product already held in the
  user's carts, active or not, must not exceed the product's
  `limit_per_user`. Reaching the limit exactly is allowed.
- **Enabling conditions** (`ProductController.can_add_with_enabling_conditions`).
  Each condition attached to the product is evaluated by the controller that
  `EnablingConditionController.for_condition` chooses for its variant:
  - a base condition is always met;
  - a stock ceiling (`TimeOrStockLimitEnablingCondition`) is met when the
    product is not one of its products, or when the units of its products in
    every cart of every user, plus the requested quantity, stay within its
    `limit`.

  An unmet mandatory condition vetoes at once, because the loop breaks.
  Otherwise, when any conditions are attached, at least one of them must be
  met, and a met mandatory condition counts too.

The database is a read-only value (`Models.Database`) that holds the cart
table and the condition table. Each ORM query is a function over it:
`CartsOf`, `SelectItems` and `ConditionsFor`. The three loops of
`controllers.py` are methods with loop invariants. Each method is proved
against a specification function: `Held` (units of one product held by one
user), `Stock` (units of a set of products in all carts), `ConditionMet`
and `GatePasses`. Separate lemmas then prove what those functions mean:
- how they react when an item or a cart is added to the history;
- that they ignore whether a cart is active;
- that the order of the condition table does not matter;
- the veto and the "at least one met" rule.

Files: `models.dfy` (module `Models`: entities, queries, totals) and
`controllers.dfy` (module `Controllers`: the three controllers and the
properties of their answers).

## Model

| member | source | states |
|---|---|---|
| `Controllers.UserCanAddWithinLimit` | symposion/registration/controllers.py:8-22 | answers true iff `quantity` plus the units of the product in all of the user's carts (active or inactive) is at most `limit_per_user`; equality is admitted |
| `Models.CartsOf` | symposion/registration/controllers.py:12 | the selected carts are exactly the user's carts, each kept as many times as it occurs in the table |
| `Models.CartsOfHeld` | symposion/registration/controllers.py:12-13 | counting the product over the user's selected carts gives exactly what the user holds of it |
| `Models.SelectItemsTotal` | symposion/registration/controllers.py:13-17 | summing the selected product items gives the total units of the selected products in the given carts |
| `Models.ItemsIn` | symposion/registration/controllers.py:13 | the items kept are exactly the cart's items whose product is selected, each kept as many times as it occurs |
| `Models.SelectItems` | symposion/registration/controllers.py:90-91 | an item is selected iff it is of one of the selected products and lies in one of the given carts |
| `Models.HeldWithItem` | symposion/registration/controllers.py:12-17 | a new item raises the user's holding of `p` by its quantity if it is of `p` and in one of the user's carts, and leaves it unchanged otherwise |
| `Models.HeldWithCart` | symposion/registration/controllers.py:12-17 | a cart inserted anywhere in the history adds its units of `p` to the holding when the user owns it, and nothing otherwise |
| `Models.StockWithItem` | symposion/registration/controllers.py:89-95 | a new item raises the stock of a product set by its quantity iff its product is in the set, whoever owns the cart |
| `Models.StockWithCart` | symposion/registration/controllers.py:89-95 | a cart inserted anywhere adds all its units of the product set to the stock, whoever owns it |
| `Models.TotalsIgnoreActive` | symposion/registration/controllers.py:12-17 | flipping a cart's active flag changes neither the user's holding nor the stock |
| `Controllers.WithinLimitMonotone` | symposion/registration/controllers.py:19-22 | if a quantity is admitted, every smaller one is admitted too; if a quantity is refused, every larger one is refused too |
| `Controllers.WithinLimitWithItem` | symposion/registration/controllers.py:12-22 | an item of another product, or in another user's cart, never changes the answer; an item of the product in the user's cart lowers the admitted quantity by exactly its own quantity |
| `Controllers.WithinLimitIgnoresOtherUsersCart` | symposion/registration/controllers.py:12-13 | a cart of another user, inserted anywhere, never changes the answer |
| `Models.ConditionsForMembers` | symposion/registration/controllers.py:30-31 | the conditions selected for a product are exactly those attached to it |
| `Controllers.ForCondition` | symposion/registration/controllers.py:62-66 | a stock ceiling gets a ceiling controller built around that very condition; every other condition gets the base controller |
| `Controllers.UserCanAdd` | symposion/registration/controllers.py:68-77 | the base controller always admits; the ceiling controller answers as the ceiling's condition does |
| `Controllers.CeilingUserCanAdd` | symposion/registration/controllers.py:77-100 | true when the product is not among the ceiling's products, whatever the quantity or stock; otherwise true iff the units of the ceiling's products in every cart of every user, plus `quantity`, are at most `limit` |
| `Controllers.Evaluate` | symposion/registration/controllers.py:36-37 | the chosen controller's answer is the condition's truth value, and it is always true for a base condition |
| `Controllers.GateStep` | symposion/registration/controllers.py:35-43 | evaluating one more condition adds a mandatory failure iff that condition is mandatory and unmet, and adds a met condition iff it is met |
| `Controllers.CanAddWithEnablingConditions` | symposion/registration/controllers.py:24-53 | answers true iff no attached mandatory condition is unmet and, when any condition is attached, at least one attached condition (mandatory or not) is met |
| `Controllers.MandatoryVeto` | symposion/registration/controllers.py:39-47 | an unmet mandatory condition at any position denies, whatever the other conditions are |
| `Controllers.NoConditionsPass` | symposion/registration/controllers.py:49-53 | with no conditions attached the gate passes |
| `Controllers.PassesIffSomeMet` | symposion/registration/controllers.py:42-53 | with no mandatory failure and at least one condition, the gate passes iff some condition, mandatory or not, is met |
| `Controllers.AllMandatoryMetPass` | symposion/registration/controllers.py:39-53 | conditions that are all mandatory and all met admit |
| `Controllers.AllOptionalUnmetFail` | symposion/registration/controllers.py:42-51 | conditions that are all non-mandatory and all unmet deny |
| `Controllers.MandatoryMetAdmitsWithoutOptional` | symposion/registration/controllers.py:42-51 | a met mandatory condition passes the gate even when every non-mandatory condition beside it fails |
| `Controllers.GateIgnoresOrder` | symposion/registration/controllers.py:35-53 | the gate's answer depends only on which conditions are present, not on their order or repetition |
| `Controllers.EnablingConditionsIgnoreTableOrder` | symposion/registration/controllers.py:30-53 | permuting the condition table never changes the answer for any product |
| `Controllers.AttachedCeilingCountsStock` | symposion/registration/controllers.py:82-96 | a ceiling attached to the product always takes its counting branch: met iff stock plus `quantity` is at most `limit` |
| `Controllers.CeilingCountsEveryCart` | symposion/registration/controllers.py:89-96 | an item of a ceiling product in anybody's cart lowers the quantity the ceiling still admits by that item's quantity |

## Notes on the reading of the code

- `models.py` is not part of this model. The fields are inferred from their
  uses in `controllers.py`. A ceiling's `products` (lines 82 and 91) is taken
  to be the same many-to-many field that attaches any condition to its
  products (lines 30-31). So every condition has a `products` set, and a
  ceiling adds a `limit`.
- The combination rule follows the code, not the comment at line 50. The
  flag set at lines 42-43 is set by any met condition, mandatory or not.
  So a met mandatory condition satisfies the "one must be met" rule even
  when every non-mandatory condition fails
  (`MandatoryMetAdmitsWithoutOptional`). A rule that only counts
  non-mandatory conditions in that OR would deny this case.
- The ceiling counts the items in every cart of every user, whatever their
  payment state. Line 93 is `if True`, and the model does the same.

## Left out

- The lookups `filter(cart=carts)` (line 13) and
  `filter(product=self.ceiling.products.all())` (line 91) pass a queryset to
  an exact lookup. The model chooses to read both as membership tests: an
  item is counted when its cart is one of the user's carts, or when its
  product is one of the ceiling's products. What the database would do
  with an exact comparison against a multi-row subquery is not modelled.

- Database access (the ORM, `select_subclasses`, `.all()`): replaced by a
  read-only snapshot value and query functions. The tables are sequences
  in table order.
- Time windows on ceilings (`start_time`/`end_time`): the code does not
  check them (only TODOs at lines 85-86), so the model does not either.
- Paid or reserved cart filtering for ceilings: not implemented in the
  code (line 93), so every item counts.
- Categories, both as condition targets and as ceiling contents: not
  implemented in the code (TODOs at lines 29 and 81).
- An "unlimited" per-user limit: the code has no sentinel, so the limit is
  a plain integer.
- Discount calculation and reconciliation (`CartController` and the
  behaviour `tests/test_discount.py` drives): `symposion/registration/cart.py`
  is not part of this model.
- The `user` argument is carried through as in the code; the ceiling
  ignores it, as the code does.
- Product identity: the code compares model instances, which compare by
  primary key. The model compares product ids.
- Item quantities and limits are unbounded integers. Python integers do not
  wrap, and the database column bounds are in `models.py`, which is not
  modelled.
