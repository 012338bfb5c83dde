/**
 * The order lifecycle of core/views.py: placing an order (`fazer_pedido`),
 * and the supplier's accept (`aceitar_pedido`) and decline (`recusar_pedido`)
 * transitions, with the stock reconciliation done on accept.
 *
 * The database lookup of an order restricted to the acting supplier's
 * products becomes an explicit `actor` argument: an order whose product
 * belongs to someone else is "not found" and nothing changes.
 */
module Views {
  import opened Wrappers
  import opened Models
  import Forms

  /** How a transition attempt ends; every failure is told apart from the others. */
  datatype Outcome = NotFound | Done | InsufficientStock | AlreadyProcessed

  /** The outcome of an accept attempt together with the order's status and the product's stock after it. */
  datatype Effect = Effect(outcome: Outcome, status: Status, stock: int)

  /** The outcome of a decline attempt together with the order's status after it. */
  datatype Decision = Decision(outcome: Outcome, status: Status)

  // ---------------------------------------------------------------------------
  // Accept
  // ---------------------------------------------------------------------------

  /**
   * Accepting an order of `quantity` units, whose product belongs to `owner`,
   * when the order has `status` and the product has `stock` units.
   */
  function AcceptEffect(owner: ProfileId, actor: ProfileId, quantity: int, status: Status, stock: int): (e: Effect)
    ensures e.outcome == NotFound <==> actor != owner
    ensures e.outcome == AlreadyProcessed <==> actor == owner && status != Pendente
    ensures e.outcome == InsufficientStock <==> actor == owner && status == Pendente && stock < quantity
    ensures e.outcome == Done <==> actor == owner && status == Pendente && quantity <= stock
    ensures e.outcome == Done ==> e.status == Aceito && e.stock == stock - quantity
    ensures e.outcome != Done ==> e.status == status && e.stock == stock
    ensures 0 <= stock ==> 0 <= e.stock
  {
    if actor != owner then Effect(NotFound, status, stock)
    else if status != Pendente then Effect(AlreadyProcessed, status, stock)
    else if stock < quantity then Effect(InsufficientStock, status, stock)
    else Effect(Done, Aceito, stock - quantity)
  }

  /**
   * `aceitar_pedido`: the owning supplier accepts a pending order when the
   * product has enough stock, taking the order's quantity off the stock.
   * Only the order's status and the product's stock may change.
   */
  method AcceptOrder(order: Order, actor: ProfileId) returns (outcome: Outcome)
    modifies order`status, order.product`stock
    ensures Effect(outcome, order.status, order.product.stock)
         == AcceptEffect(order.product.owner, actor, order.quantity, old(order.status), old(order.product.stock))
  {
    if order.product.owner != actor {
      return NotFound;
    }
    if order.status == Pendente {
      if order.product.stock >= order.quantity {
        order.product.stock := order.product.stock - order.quantity;
        order.status := Aceito;
        outcome := Done;
      } else {
        outcome := InsufficientStock;
      }
    } else {
      outcome := AlreadyProcessed;
    }
  }

  // ---------------------------------------------------------------------------
  // Decline
  // ---------------------------------------------------------------------------

  /** Declining an order whose product belongs to `owner`, when the order has `status`. */
  function DeclineEffect(owner: ProfileId, actor: ProfileId, status: Status): (d: Decision)
    ensures d.outcome == NotFound <==> actor != owner
    ensures d.outcome == AlreadyProcessed <==> actor == owner && status != Pendente
    ensures d.outcome == Done <==> actor == owner && status == Pendente
    ensures d.outcome == Done ==> d.status == Recusado
    ensures d.outcome != Done ==> d.status == status
  {
    if actor != owner then Decision(NotFound, status)
    else if status == Pendente then Decision(Done, Recusado)
    else Decision(AlreadyProcessed, status)
  }

  /**
   * `recusar_pedido`: the owning supplier declines a pending order.
   * Only the order's status may change; the product's stock is left alone.
   */
  method DeclineOrder(order: Order, actor: ProfileId) returns (outcome: Outcome)
    modifies order`status
    ensures Decision(outcome, order.status) == DeclineEffect(order.product.owner, actor, old(order.status))
    ensures order.product.stock == old(order.product.stock)
  {
    if order.product.owner != actor {
      return NotFound;
    }
    if order.status == Pendente {
      order.status := Recusado;
      outcome := Done;
    } else {
      outcome := AlreadyProcessed;
    }
  }

  /** A pending order is decided once: after an accept or a decline succeeds, the other is refused and changes nothing. */
  lemma FirstDecisionIsFinal(owner: ProfileId, quantity: int, stock: int)
    ensures var e := AcceptEffect(owner, owner, quantity, Pendente, stock);
            e.outcome == Done ==> DeclineEffect(owner, owner, e.status) == Decision(AlreadyProcessed, Aceito)
    ensures var d := DeclineEffect(owner, owner, Pendente);
            AcceptEffect(owner, owner, quantity, d.status, stock) == Effect(AlreadyProcessed, Recusado, stock)
  {
  }

  // ---------------------------------------------------------------------------
  // Place an order
  // ---------------------------------------------------------------------------

  /**
   * `fazer_pedido`: validates the quantity against the product's current stock
   * and, when it passes, creates a pending order whose total is the product's
   * price times the quantity, fixed at this moment. The product is not changed.
   */
  method PlaceOrder(product: Product, buyer: ProfileId, quantity: int) returns (r: Result<Order, Forms.QuantityError>)
    ensures r.Success? <==> Forms.CleanQuantity(quantity, Some(product.stock)).Success?
    ensures r.Failure? ==> Forms.CleanQuantity(quantity, Some(product.stock)) == Failure(r.error)
    ensures r.Success? ==> fresh(r.value) && r.value.product == product && r.value.buyer == buyer
    ensures r.Success? ==> r.value.quantity == quantity && r.value.total == product.price * quantity
    ensures r.Success? ==> r.value.status == Pendente
  {
    var cleaned := Forms.CleanQuantity(quantity, Some(product.stock));
    match cleaned
    case Failure(err) =>
      r := Failure(err);
    case Success(q) =>
      var order := new Order(product, buyer, q, product.price * q);
      r := Success(order);
  }

  // ---------------------------------------------------------------------------
  // Several accepts against one product
  // ---------------------------------------------------------------------------

  /** One accept attempt by `actor` on a distinct order of the same product. */
  datatype Request = Request(actor: ProfileId, quantity: int, status: Status)

  /** The product's stock after a run of accept attempts, and the outcome of each. */
  datatype Batch = Batch(stock: int, outcomes: seq<Outcome>)

  /** Accept attempts on distinct orders of one product owned by `owner`, applied in order. */
  function AcceptAll(owner: ProfileId, stock: int, rs: seq<Request>): (b: Batch)
    ensures |b.outcomes| == |rs|
    decreases rs
  {
    if rs == [] then Batch(stock, [])
    else
      var e := AcceptEffect(owner, rs[0].actor, rs[0].quantity, rs[0].status, stock);
      var rest := AcceptAll(owner, e.stock, rs[1..]);
      Batch(rest.stock, [e.outcome] + rest.outcomes)
  }

  /** The total quantity of the requests whose outcome is `Done`. */
  function AcceptedQuantity(rs: seq<Request>, outcomes: seq<Outcome>): int
    requires |outcomes| == |rs|
  {
    if rs == [] then 0
    else (if outcomes[0] == Done then rs[0].quantity else 0) + AcceptedQuantity(rs[1..], outcomes[1..])
  }

  /** Stock that starts non-negative stays non-negative through any run of accepts. */
  lemma {:induction false} AcceptAllKeepsStockNonNegative(owner: ProfileId, stock: int, rs: seq<Request>)
    requires 0 <= stock
    ensures 0 <= AcceptAll(owner, stock, rs).stock
    decreases rs
  {
    if rs != [] {
      var e := AcceptEffect(owner, rs[0].actor, rs[0].quantity, rs[0].status, stock);
      AcceptAllKeepsStockNonNegative(owner, e.stock, rs[1..]);
    }
  }

  /** The stock drops by exactly the quantities of the accepted orders. */
  lemma {:induction false} AcceptAllConservesStock(owner: ProfileId, stock: int, rs: seq<Request>)
    ensures var b := AcceptAll(owner, stock, rs);
            b.stock + AcceptedQuantity(rs, b.outcomes) == stock
    decreases rs
  {
    if rs != [] {
      var e := AcceptEffect(owner, rs[0].actor, rs[0].quantity, rs[0].status, stock);
      var rest := AcceptAll(owner, e.stock, rs[1..]);
      AcceptAllConservesStock(owner, e.stock, rs[1..]);
      var b := AcceptAll(owner, stock, rs);
      assert b.outcomes[1..] == rest.outcomes;
    }
  }

  /** No run of accepts sells more than the stock it started with. */
  lemma AcceptAllNeverOversells(owner: ProfileId, stock: int, rs: seq<Request>)
    requires 0 <= stock
    ensures AcceptedQuantity(rs, AcceptAll(owner, stock, rs).outcomes) <= stock
  {
    AcceptAllKeepsStockNonNegative(owner, stock, rs);
    AcceptAllConservesStock(owner, stock, rs);
  }

  /**
   * Two orders of 6 units placed against a stock of 10: both pass the form,
   * the first accept succeeds and leaves 4 units, the second is refused for
   * insufficient stock and leaves the stock and its order as they were.
   */
  method OversellScenario()
  {
    var product := new Product(1, 250, 10);
    var placedA := PlaceOrder(product, 2, 6);
    var placedB := PlaceOrder(product, 3, 6);
    assert placedA.Success? && placedB.Success?;
    var a, b := placedA.value, placedB.value;
    assert a.total == 1500;

    var first := AcceptOrder(a, 1);
    assert first == Done && product.stock == 4 && a.status == Aceito;

    var second := AcceptOrder(b, 1);
    assert second == InsufficientStock && product.stock == 4 && b.status == Pendente;
    assert a.status == Aceito;

    var foreign := DeclineOrder(b, 2);
    assert foreign == NotFound && b.status == Pendente;
  }
}
